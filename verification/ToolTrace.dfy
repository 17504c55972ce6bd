/** What a consumer of the Chat stream may rely on, over every run of the parser.

The history functions below read only the requests made of the parser, never its state, so the
theorems at the end say what the parser's maps and its event trace mean. */
module ToolTrace {
  import opened ChatParser

  // ---- The history of one tool key ---------------------------------------------------------

  /** All name fragments of a key merged in arrival order. */
  function NameOf(ops: seq<Op>, key: string): string {
    if ops == [] then ""
    else
      var before, last := NameOf(ops[..|ops| - 1], key), ops[|ops| - 1];
      if last.Call? && last.key == key && last.name != "" then MergeToolName(before, last.name) else before
  }

  /** Latest non-empty call id of a key. */
  function IdOf(ops: seq<Op>, key: string): string {
    if ops == [] then ""
    else
      var last := ops[|ops| - 1];
      if last.Call? && last.key == key && last.id != "" then last.id else IdOf(ops[..|ops| - 1], key)
  }

  /** Keys in order of first mention. */
  function KeysSeen(ops: seq<Op>): seq<string> {
    if ops == [] then []
    else
      var before, last := KeysSeen(ops[..|ops| - 1]), ops[|ops| - 1];
      if last.Call? && last.key !in before then before + [last.key] else before
  }

  /** Request `i` calls for the tool's announcement: arguments for it, or a finish reason, while
  it already has a name. */
  ghost predicate DueAt(ops: seq<Op>, key: string, i: int)
    requires 0 <= i < |ops|
  {
    && (ops[i].Close? || (ops[i].Call? && ops[i].key == key && ops[i].arguments != ""))
    && NameOf(ops[..i + 1], key) != ""
  }

  ghost predicate Due(ops: seq<Op>, key: string) {
    exists i | 0 <= i < |ops| :: DueAt(ops, key, i)
  }

  // ---- What a trace promises ---------------------------------------------------------------

  predicate IsTool(e: Event) {
    e.ToolStart? || e.ToolDelta?
  }

  ghost predicate StartAt(events: seq<Event>, key: string, i: int) {
    0 <= i < |events| && events[i].ToolStart? && events[i].key == key
  }

  ghost predicate Started(events: seq<Event>, key: string) {
    exists i :: StartAt(events, key, i)
  }

  /** At most one start per key, each start named, no named delta before its key's start, and
  the name shown for a key only ever grows at its end. */
  ghost predicate TraceOk(events: seq<Event>) {
    && (forall i | 0 <= i < |events| && events[i].ToolStart? :: events[i].name != "")
    && (forall i, j | 0 <= i < j < |events| && events[i].ToolStart? && events[j].ToolStart? ::
          events[i].key != events[j].key)
    && (forall j | 0 <= j < |events| && events[j].ToolDelta? && events[j].name != "" ::
          Started(events[..j], events[j].key))
    && (forall i, j | 0 <= i < j < |events| && IsTool(events[i]) && IsTool(events[j])
                      && events[i].key == events[j].key ::
          events[i].name <= events[j].name)
  }

  ghost predicate NoDuplicates(s: seq<string>) {
    forall i, j | 0 <= i < j < |s| :: s[i] != s[j]
  }

  ghost predicate StateOk(s: State) {
    && NoDuplicates(s.toolOrder)
    && (forall k :: k in s.toolOrder <==> k in s.tools)
    && (forall k | k in s.toolNames :: k in s.tools && s.toolNames[k] != "")
  }

  /** The flags say which keys the trace has started, and no name in it is ahead of the state. */
  ghost predicate Agree(s: State, events: seq<Event>) {
    && (forall k :: Started(events, k) <==> k in s.tools && s.tools[k])
    && (forall i | 0 <= i < |events| && IsTool(events[i]) ::
          events[i].name <= Lookup(s.toolNames, events[i].key))
  }

  ghost predicate Good(s: State, events: seq<Event>) {
    StateOk(s) && Agree(s, events) && TraceOk(events)
  }

  // ---- One event at a time -----------------------------------------------------------------

  lemma StartedSnoc(events: seq<Event>, e: Event, k: string)
    ensures Started(events + [e], k) <==> Started(events, k) || (e.ToolStart? && e.key == k)
  {
    var all := events + [e];
    if Started(events, k) {
      var i :| StartAt(events, k, i);
      assert StartAt(all, k, i);
    }
    if e.ToolStart? && e.key == k {
      assert StartAt(all, k, |events|);
    }
    if Started(all, k) {
      var i :| StartAt(all, k, i);
      assert i == |events| || StartAt(events, k, i);
    }
  }

  lemma TraceSnoc(events: seq<Event>, e: Event)
    requires TraceOk(events)
    requires e.ToolStart? ==> e.name != "" && !Started(events, e.key)
    requires e.ToolDelta? && e.name != "" ==> Started(events, e.key)
    requires IsTool(e) ==>
               forall i | 0 <= i < |events| && IsTool(events[i]) && events[i].key == e.key :: events[i].name <= e.name
    ensures TraceOk(events + [e])
  {
    var all := events + [e];
    forall j | 0 <= j < |all| && all[j].ToolDelta? && all[j].name != "" ensures Started(all[..j], all[j].key) {
      assert all[..j] == events[..j];
      if j == |events| {
        assert all[..j] == events;
      }
    }
    if e.ToolStart? {
      assert forall i | 0 <= i < |events| && events[i].ToolStart? ::
          events[i].key == e.key ==> StartAt(events, e.key, i);
    }
  }

  lemma PlainStep(s: State, events: seq<Event>, e: Event)
    requires Good(s, events) && !IsTool(e)
    ensures Good(s, events + [e])
  {
    TraceSnoc(events, e);
    forall k ensures Started(events + [e], k) <==> k in s.tools && s.tools[k] {
      StartedSnoc(events, e, k);
    }
  }

  lemma DeltaStep(s: State, events: seq<Event>, e: Event)
    requires Good(s, events) && e.ToolDelta? && e.name == Lookup(s.toolNames, e.key)
    requires e.name != "" ==> e.key in s.tools && s.tools[e.key]
    ensures Good(s, events + [e])
  {
    TraceSnoc(events, e);
    forall k ensures Started(events + [e], k) <==> k in s.tools && s.tools[k] {
      StartedSnoc(events, e, k);
    }
  }

  lemma StartStep(s: State, events: seq<Event>, key: string)
    requires Good(s, events)
    ensures var t := StartTool(s, key);
            && Good(t.state, events + t.events)
            && (Lookup(s.toolNames, key) != "" ==> key in t.state.tools && t.state.tools[key])
            && t.state == s.(tools := t.state.tools)
            && t.state.tools.Keys == s.tools.Keys
            && (forall k | k in s.tools && k != key :: t.state.tools[k] == s.tools[k])
            && (forall e | e in t.events :: e.ToolStart? && e.key == key)
            && (key in s.tools && s.tools[key] ==> t.state.tools[key])
            && (key in s.tools && t.state.tools[key] && !s.tools[key] ==> Lookup(s.toolNames, key) != "")
  {
    var t := StartTool(s, key);
    if t.events == [] {
      assert events + t.events == events;
    } else {
      var e := t.events[0];
      TraceSnoc(events, e);
      forall k ensures Started(events + [e], k) <==> k in t.state.tools && t.state.tools[k] {
        StartedSnoc(events, e, k);
      }
      assert t.state.tools.Keys == s.tools.Keys;
    }
  }

  /** A finish reason starts exactly the pending tools that have a name. */
  lemma {:induction false} StartAllStep(s: State, events: seq<Event>, keys: seq<string>)
    requires Good(s, events)
    ensures var t := StartTools(s, keys);
            && Good(t.state, events + t.events)
            && t.state == s.(tools := t.state.tools)
            && t.state.tools.Keys == s.tools.Keys
            && (forall k | k in s.tools ::
                  t.state.tools[k] <==> s.tools[k] || (k in keys && Lookup(s.toolNames, k) != ""))
            && (forall e | e in t.events :: e.ToolStart?)
  {
    hide Good, StartTool, Lookup;
    if keys == [] {
      assert events + [] == events;
    } else {
      var n := |keys| - 1;
      StartAllStep(s, events, keys[..n]);
      var front := StartTools(s, keys[..n]);
      StartStep(front.state, events + front.events, keys[n]);
      assert events + StartTools(s, keys).events
          == events + front.events + StartTool(front.state, keys[n]).events;
      assert forall k :: k in keys <==> k in keys[..n] || k == keys[n];
    }
  }

  lemma NameExtends(current: string, fragment: string)
    ensures current <= MergeToolName(current, fragment)
    ensures fragment != "" ==> MergeToolName(current, fragment) != ""
  {
  }

  lemma SeeKeepsState(s: State, key: string, id: string, name: string)
    requires StateOk(s)
    ensures StateOk(See(s, key, id, name))
  {
    hide MergeToolName;
    var t := See(s, key, id, name);
    NameExtends(Lookup(s.toolNames, key), name);
    forall k ensures k in t.toolOrder <==> k in t.tools {
      assert k in t.toolOrder <==> k in s.toolOrder || k == key;
    }
  }

  lemma SeeStep(s: State, events: seq<Event>, key: string, id: string, name: string)
    requires Good(s, events)
    ensures Good(See(s, key, id, name), events)
  {
    hide TraceOk, StateOk, Started, MergeToolName;
    var t := See(s, key, id, name);
    SeeKeepsState(s, key, id, name);
    NameExtends(Lookup(s.toolNames, key), name);
    forall i | 0 <= i < |events| && IsTool(events[i]) ensures events[i].name <= Lookup(t.toolNames, events[i].key) {
      assert Lookup(s.toolNames, events[i].key) <= Lookup(t.toolNames, events[i].key);
    }
  }

  lemma CallStep(s: State, events: seq<Event>, key: string, id: string, name: string, arguments: string)
    requires Good(s, events)
    ensures var t := Step(s, Call(key, id, name, arguments)); Good(t.state, events + t.events)
  {
    hide Good, StartTool;
    var seen, t := See(s, key, id, name), Step(s, Call(key, id, name, arguments));
    SeeStep(s, events, key, id, name);
    if arguments == "" {
      assert events + t.events == events;
    } else {
      StartStep(seen, events, key);
      var first := StartTool(seen, key);
      var delta := ToolDelta(key, Lookup(seen.toolIDs, key), Lookup(seen.toolNames, key), arguments);
      DeltaStep(first.state, events + first.events, delta);
      assert events + t.events == events + first.events + [delta];
    }
  }

  lemma CloseStep(s: State, events: seq<Event>, stop: string)
    requires Good(s, events)
    ensures var t := Step(s, Close(stop)); Good(t.state, events + t.events)
  {
    hide Good, StartTools;
    StartAllStep(s, events, s.toolOrder);
    var first, t := StartTools(s, s.toolOrder), Step(s, Close(stop));
    PlainStep(first.state, events + first.events, Finish(stop));
    assert events + t.events == events + first.events + [Finish(stop)];
  }

  lemma HelloStep(s: State, events: seq<Event>, id: string, model: string)
    requires Good(s, events)
    ensures var t := Step(s, Hello(id, model)); Good(t.state, events + t.events)
  {
    var t := Step(s, Hello(id, model));
    if t.events == [] {
      assert events + t.events == events;
    } else {
      PlainStep(s, events, t.events[0]);
      assert Good(t.state, events + [t.events[0]]);
    }
  }

  lemma OpStep(s: State, events: seq<Event>, op: Op)
    requires Good(s, events)
    requires op.Emit? ==> !IsTool(op.event)
    ensures Good(Step(s, op).state, events + Step(s, op).events)
  {
    hide Good;
    match op
    case Hello(id, model) => HelloStep(s, events, id, model);
    case Emit(event) => PlainStep(s, events, event);
    case Call(key, id, name, arguments) => CallStep(s, events, key, id, name, arguments);
    case Close(stop) => CloseStep(s, events, stop);
  }

  // ---- Whole runs --------------------------------------------------------------------------

  /** Requests as the parser makes them: tool events only ever come from the parser itself. */
  predicate PlainEmits(ops: seq<Op>) {
    forall op | op in ops && op.Emit? :: !IsTool(op.event)
  }

  /** Trace safety, for every run from a fresh parser. */
  lemma {:induction false} RunTrace(ops: seq<Op>)
    requires PlainEmits(ops)
    ensures Good(Run(INITIAL, ops).state, Run(INITIAL, ops).events)
  {
    if ops != [] {
      var front, last := ops[..|ops| - 1], ops[|ops| - 1];
      RunTrace(front);
      OpStep(Run(INITIAL, front).state, Run(INITIAL, front).events, last);
    }
  }

  /** The parser's maps are exactly the history's names, ids and first-mention order. */
  lemma {:induction false} RunHistory(ops: seq<Op>, key: string)
    ensures var s := Run(INITIAL, ops).state;
            && s.toolOrder == KeysSeen(ops)
            && Lookup(s.toolNames, key) == NameOf(ops, key)
            && Lookup(s.toolIDs, key) == IdOf(ops, key)
            && (forall k :: k in s.tools <==> k in KeysSeen(ops))
  {
    if ops != [] {
      var front, last := ops[..|ops| - 1], ops[|ops| - 1];
      RunHistory(front, key);
      StepKeeps(Run(INITIAL, front).state, last);
    }
  }

  lemma {:induction false} StartToolsKeeps(s: State, keys: seq<string>)
    requires forall k | k in keys :: k in s.tools
    ensures var t := StartTools(s, keys).state; t == s.(tools := t.tools) && t.tools.Keys == s.tools.Keys
  {
    if keys != [] {
      StartToolsKeeps(s, keys[..|keys| - 1]);
      var t := StartTools(s, keys[..|keys| - 1]).state;
      assert keys[|keys| - 1] in s.tools.Keys;
      assert StartTool(t, keys[|keys| - 1]).state.tools.Keys == t.tools.Keys;
    }
  }

  lemma StepKeeps(s: State, op: Op)
    requires forall k :: k in s.tools <==> k in s.toolOrder
    ensures var t := Step(s, op).state;
            && (op.Call? ==>
                  var seen := See(s, op.key, op.id, op.name);
                  t == seen.(tools := t.tools) && t.tools.Keys == s.tools.Keys + {op.key})
            && (!op.Call? ==>
                  && t.toolOrder == s.toolOrder && t.toolNames == s.toolNames
                  && t.toolIDs == s.toolIDs && t.tools.Keys == s.tools.Keys)
  {
    if op.Close? {
      StartToolsKeeps(s, s.toolOrder);
    } else if op.Call? {
      var seen := See(s, op.key, op.id, op.name);
      assert seen.tools.Keys == s.tools.Keys + {op.key};
      assert StartTool(seen, op.key).state.tools.Keys == seen.tools.Keys;
    }
  }

  /** A tool is announced if and only if it is due: no named tool is still pending after a finish,
  and nothing is announced early. */
  lemma {:induction false} StartedIffDue(ops: seq<Op>, key: string)
    requires PlainEmits(ops)
    ensures Started(Run(INITIAL, ops).events, key) <==> Due(ops, key)
  {
    if ops != [] {
      var n := |ops| - 1;
      var front := ops[..n];
      StartedIffDue(front, key);
      RunTrace(front);
      RunTrace(ops);
      RunHistory(front, key);
      RunHistory(ops, key);
      StepFlag(Run(INITIAL, front).state, Run(INITIAL, front).events, ops[n], key);
      assert ops[..n + 1] == ops;
      DueSnoc(ops, key);
    }
  }

  lemma DueSnoc(ops: seq<Op>, key: string)
    requires ops != []
    ensures Due(ops, key) <==> Due(ops[..|ops| - 1], key) || DueAt(ops, key, |ops| - 1)
  {
    var front := ops[..|ops| - 1];
    forall i | 0 <= i < |front| ensures DueAt(front, key, i) <==> DueAt(ops, key, i) {
      assert front[..i + 1] == ops[..i + 1];
    }
    if Due(ops, key) {
      var i :| 0 <= i < |ops| && DueAt(ops, key, i);
      assert i == |front| || DueAt(front, key, i);
    }
    if Due(front, key) {
      var i :| 0 <= i < |front| && DueAt(front, key, i);
      assert DueAt(ops, key, i);
    }
  }

  ghost predicate Flag(s: State, key: string) {
    key in s.tools && s.tools[key]
  }

  lemma StepFlag(s: State, events: seq<Event>, op: Op, key: string)
    requires Good(s, events)
    ensures var t := Step(s, op).state;
            Flag(t, key) <==> Flag(s, key)
                              || ((op.Close? || (op.Call? && op.key == key && op.arguments != ""))
                                  && Lookup(t.toolNames, key) != "")
  {
    if op.Close? {
      StartAllStep(s, events, s.toolOrder);
    } else if op.Call? {
      SeeStep(s, events, op.key, op.id, op.name);
      StartStep(See(s, op.key, op.id, op.name), events, op.key);
    }
  }

  /** Whatever the chunks were, their requests satisfy `PlainEmits`, so every theorem above
  applies to a run of the parser over them. */
  lemma {:induction false} ChunksArePlain(h: Json.Host, values: seq<Json.Fields>)
    ensures PlainEmits(AllOps(h, values))
  {
    if values != [] {
      var last := values[|values| - 1];
      ChunksArePlain(h, values[..|values| - 1]);
      ChoicesArePlain(h, Json.SliceAt(last, ["choices"]));
      assert PlainEmits(HeadOps(last));
    }
  }

  lemma {:induction false} ChoicesArePlain(h: Json.Host, raws: seq<Json.Value>)
    ensures PlainEmits(ChoiceOps(h, raws))
  {
    if raws != [] {
      var choice := Json.AsObject(raws[|raws| - 1]);
      var delta := Json.MapAt(choice, ["delta"]);
      ChoicesArePlain(h, raws[..|raws| - 1]);
      CallsArePlain(h, Json.SliceAt(delta, ["tool_calls"]));
      assert PlainEmits(TextOps(h, delta)) && PlainEmits(StopOps(h, choice));
    }
  }

  lemma {:induction false} CallsArePlain(h: Json.Host, raws: seq<Json.Value>)
    ensures PlainEmits(CallOps(h, raws))
  {
    if raws != [] {
      CallsArePlain(h, raws[..|raws| - 1]);
    }
  }

  /** Everything a list of decoded chunks asks for. */
  function AllOps(h: Json.Host, values: seq<Json.Fields>): seq<Op> {
    if values == [] then [] else AllOps(h, values[..|values| - 1]) + Linear(h, values[|values| - 1])
  }

  /** At every finish all tools that have a name have been started, and its event comes behind. */
  lemma FinishStartsNamed(ops: seq<Op>, key: string)
    requires PlainEmits(ops) && ops != [] && ops[|ops| - 1].Close? && NameOf(ops, key) != ""
    ensures var events := Run(INITIAL, ops).events;
            Started(events, key) && events[|events| - 1] == Finish(ops[|ops| - 1].stop)
  {
    hide Run, Started;
    FinishIsLast(ops);
    StartedIffDue(ops, key);
    assert ops[..|ops|] == ops;
    assert DueAt(ops, key, |ops| - 1);
  }

  lemma FinishIsLast(ops: seq<Op>)
    requires ops != [] && ops[|ops| - 1].Close?
    ensures var events := Run(INITIAL, ops).events;
            events != [] && events[|events| - 1] == Finish(ops[|ops| - 1].stop)
  {
    hide StartTools;
  }

  /** A tool's name is only ever extended at its end as the run goes on. */
  lemma {:induction false} NameGrows(ops: seq<Op>, n: nat, key: string)
    requires n <= |ops|
    ensures NameOf(ops[..n], key) <= NameOf(ops, key)
    decreases |ops| - n
  {
    if n == |ops| {
      assert ops[..n] == ops;
    } else {
      assert ops[..n + 1][..n] == ops[..n];
      NameGrows(ops, n + 1, key);
    }
  }

  /** The contract of a fresh parser over any list of decoded chunks. */
  lemma ParserRun(h: Json.Host, values: seq<Json.Fields>)
    ensures var ops := AllOps(h, values);
            var t := Run(INITIAL, ops);
            && TraceOk(t.events)
            && NoDuplicates(t.state.toolOrder)
            && t.state.toolOrder == KeysSeen(ops)
            && t.state.tools.Keys == (set k | k in t.state.toolOrder)
            && forall key ::
                 && (Started(t.events, key) <==> Due(ops, key))
                 && (Flag(t.state, key) <==> Started(t.events, key))
                 && Lookup(t.state.toolNames, key) == NameOf(ops, key)
                 && Lookup(t.state.toolIDs, key) == IdOf(ops, key)
  {
    var ops := AllOps(h, values);
    ChunksArePlain(h, values);
    RunTrace(ops);
    RunHistory(ops, "");
    forall key
      ensures Started(Run(INITIAL, ops).events, key) <==> Due(ops, key)
      ensures Lookup(Run(INITIAL, ops).state.toolNames, key) == NameOf(ops, key)
      ensures Lookup(Run(INITIAL, ops).state.toolIDs, key) == IdOf(ops, key)
    {
      StartedIffDue(ops, key);
      RunHistory(ops, key);
    }
  }
}
