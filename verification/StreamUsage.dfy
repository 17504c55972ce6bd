/** What one observed stream amounts to, in terms of the chunks it carried and nothing else. */
module StreamUsage {
  import opened Common
  import opened Json
  import opened Usage
  import opened ChatParser
  import opened Sse
  import opened Observer
  import opened EventStream
  import ToolTrace

  /** The chunks a list of dispatched blocks decodes to, in order. */
  function Chunks(h: Host, protocol: Protocol, calls: seq<Dispatch>): seq<Fields> {
    if calls == [] then []
    else
      var front, last := Chunks(h, protocol, calls[..|calls| - 1]), calls[|calls| - 1];
      if last.data == "[DONE]" || h.decode(last.data).None? || protocol != Chat then front
      else front + [h.decode(last.data).value]
  }

  function ChunkReport(value: Fields): seq<BridgeUsage> {
    var usage := MapAt(value, ["usage"]);
    if |usage| > 0 then [DecodeUsage(usage)] else []
  }

  /** The usage objects the chunks carry. */
  function ChunkReports(values: seq<Fields>): seq<BridgeUsage> {
    if values == [] then []
    else ChunkReports(values[..|values| - 1]) + ChunkReport(values[|values| - 1])
  }

  function OpReport(op: Op): seq<BridgeUsage> {
    if op.Emit? && op.event.UsageReport? then [op.event.usage] else []
  }

  function OpReports(ops: seq<Op>): seq<BridgeUsage> {
    if ops == [] then [] else OpReports(ops[..|ops| - 1]) + OpReport(ops[|ops| - 1])
  }

  lemma {:induction false} ReportsAppend(a: seq<Event>, b: seq<Event>)
    ensures Reports(a + b) == Reports(a) + Reports(b)
  {
    if b == [] {
      assert a + b == a;
    } else {
      ReportsAppend(a, b[..|b| - 1]);
      assert (a + b)[..|a + b| - 1] == a + b[..|b| - 1];
    }
  }

  lemma {:induction false} OpReportsAppend(a: seq<Op>, b: seq<Op>)
    ensures OpReports(a + b) == OpReports(a) + OpReports(b)
  {
    hide OpReport;
    if b == [] {
      assert a + b == a;
    } else {
      OpReportsAppend(a, b[..|b| - 1]);
      assert (a + b)[..|a + b| - 1] == a + b[..|b| - 1];
    }
  }

  lemma {:induction false} StartToolsReportNothing(s: State, keys: seq<string>)
    ensures Reports(StartTools(s, keys).events) == []
  {
    if keys != [] {
      StartToolsReportNothing(s, keys[..|keys| - 1]);
      var front := StartTools(s, keys[..|keys| - 1]);
      ReportsAppend(front.events, StartTool(front.state, keys[|keys| - 1]).events);
    }
  }

  lemma StepReports(s: State, op: Op)
    ensures Reports(Step(s, op).events) == OpReport(op)
  {
    if op.Close? {
      StartToolsReportNothing(s, s.toolOrder);
      ReportsAppend(StartTools(s, s.toolOrder).events, [Finish(op.stop)]);
    } else if op.Call? {
      var seen := See(s, op.key, op.id, op.name);
      ReportsAppend(StartTool(seen, op.key).events,
                    [ToolDelta(op.key, Lookup(seen.toolIDs, op.key), Lookup(seen.toolNames, op.key), op.arguments)]);
    }
  }

  lemma {:induction false} RunReports(s: State, ops: seq<Op>)
    ensures Reports(Run(s, ops).events) == OpReports(ops)
  {
    if ops != [] {
      var front := ops[..|ops| - 1];
      RunReports(s, front);
      StepReports(Run(s, front).state, ops[|ops| - 1]);
      ReportsAppend(Run(s, front).events, Step(Run(s, front).state, ops[|ops| - 1]).events);
    }
  }

  predicate Silent(ops: seq<Op>) {
    forall op | op in ops :: OpReport(op) == []
  }

  lemma {:induction false} SilentReportsNothing(ops: seq<Op>)
    requires Silent(ops)
    ensures OpReports(ops) == []
  {
    if ops != [] {
      SilentReportsNothing(ops[..|ops| - 1]);
    }
  }

  lemma {:induction false} CallsAreSilent(h: Host, raws: seq<Value>)
    ensures Silent(CallOps(h, raws))
  {
    if raws != [] {
      CallsAreSilent(h, raws[..|raws| - 1]);
    }
  }

  lemma {:induction false} ChoicesAreSilent(h: Host, raws: seq<Value>)
    ensures Silent(ChoiceOps(h, raws))
  {
    if raws != [] {
      var choice := AsObject(raws[|raws| - 1]);
      var delta := MapAt(choice, ["delta"]);
      ChoicesAreSilent(h, raws[..|raws| - 1]);
      CallsAreSilent(h, SliceAt(delta, ["tool_calls"]));
      assert Silent(TextOps(h, delta)) && Silent(StopOps(h, choice));
    }
  }

  lemma HeadReports(value: Fields)
    ensures OpReports(HeadOps(value)) == ChunkReport(value)
  {
    hide DecodeUsage, MapAt, StringAt;
    var usage := MapAt(value, ["usage"]);
    var hello := [Hello(StringAt(value, ["id"]), StringAt(value, ["model"]))];
    OpReportsAppend(hello, if |usage| > 0 then [Emit(UsageReport(DecodeUsage(usage)))] else []);
  }

  lemma LinearReports(h: Host, value: Fields)
    ensures OpReports(Linear(h, value)) == ChunkReport(value)
  {
    hide HeadOps, ChoiceOps, OpReports, ChunkReport;
    var choices := ChoiceOps(h, SliceAt(value, ["choices"]));
    ChoicesAreSilent(h, SliceAt(value, ["choices"]));
    SilentReportsNothing(choices);
    OpReportsAppend(HeadOps(value), choices);
    HeadReports(value);
  }

  lemma {:induction false} MergeAllAppend(d: BridgeUsage, a: seq<BridgeUsage>, b: seq<BridgeUsage>)
    ensures MergeAll(d, a + b) == MergeAll(MergeAll(d, a), b)
  {
    if b == [] {
      assert a + b == a;
    } else {
      MergeAllAppend(d, a, b[..|b| - 1]);
      assert (a + b)[..|a + b| - 1] == a + b[..|b| - 1];
    }
  }

  /** The tally after any dispatched blocks: usage is the merge of the chunks' usage objects, the
  flag says whether there was one, and the parser is where one run over the chunks leaves it. */
  lemma {:induction false} TallyIsSummary(h: Host, protocol: Protocol, calls: seq<Dispatch>)
    ensures var values := Chunks(h, protocol, calls);
            AbsorbAll(h, protocol, NOTHING, calls)
            == Tally(Run(INITIAL, ToolTrace.AllOps(h, values)).state,
                     MergeAll(ZERO, ChunkReports(values)),
                     ChunkReports(values) != [])
  {
    hide Linear, Run, Merge;
    if calls == [] {
      RunNone();
    } else {
      var front, last := calls[..|calls| - 1], calls[|calls| - 1];
      TallyIsSummary(h, protocol, front);
      if Chunks(h, protocol, calls) != Chunks(h, protocol, front) {
        var values, value := Chunks(h, protocol, front), h.decode(last.data).value;
        var all := values + [value];
        assert all[..|all| - 1] == values;
        var ops := ToolTrace.AllOps(h, values);
        RunAppend(INITIAL, ops, Linear(h, value));
        RunReports(Run(INITIAL, ops).state, Linear(h, value));
        LinearReports(h, value);
        MergeAllAppend(ZERO, ChunkReports(values), ChunkReport(value));
      }
    }
  }

  lemma RunNone()
    ensures Run(INITIAL, []) == Trace(INITIAL, [])
  {
  }

  /** The tally is the summary of these chunks: usage keeps the largest total and the last non-zero
  report of every other field, the flag says whether there was a report, and the parser is where
  one run over the chunks leaves it. */
  ghost predicate IsSummary(h: Host, tally: Tally, values: seq<Fields>) {
    && tally.usage == MergeAll(ZERO, ChunkReports(values))
    && IsHighWater(ChunkReports(values), tally.usage.total)
    && (forall f :: IsLastNonZero(Column(ChunkReports(values), f), Get(tally.usage, f)))
    && (tally.reported <==> ChunkReports(values) != [])
    && tally.parser == Run(INITIAL, ToolTrace.AllOps(h, values)).state
  }

  /** The observer's answer for any stream in any chunks is the summary of what its pieces carry. */
  lemma ObservedSummary(h: Host, protocol: Protocol, chunks: seq<string>)
    ensures IsSummary(h, Observed(h, protocol, chunks), Chunks(h, protocol, PieceCalls(h, Pieces(Concat(chunks)))))
  {
    hide AbsorbAll, Observed, Run, MergeAll, Pieces, PieceCalls, Chunks, IsHighWater, IsLastNonZero;
    ObservedIsFramed(h, protocol, chunks);
    var calls := PieceCalls(h, Pieces(Concat(chunks)));
    TallyIsSummary(h, protocol, calls);
    var reports := ChunkReports(Chunks(h, protocol, calls));
    MergeAllTotal(reports);
    forall f ensures IsLastNonZero(Column(reports, f), Get(MergeAll(ZERO, reports), f)) {
      MergeAllFields(reports, f);
    }
  }

  /** With every line under the scanner's limit it is the summary of one pass over the stream. */
  lemma SummaryOfOnePass(h: Host, protocol: Protocol, chunks: seq<string>)
    requires LinesFit(Concat(chunks))
    ensures IsSummary(h, Observed(h, protocol, chunks), Chunks(h, protocol, Pass(h, Concat(chunks)).calls))
  {
    hide IsSummary, Observed, Chunks, Pass, Pieces, PieceCalls, LinesFit;
    ObservedSummary(h, protocol, chunks);
    FramedIsSingle(h, Concat(chunks));
  }

  /** For any stream written in the grammar without an over-long line, cut into any chunks: the
  summary of what its blocks say. */
  lemma ObservedStream(h: Host, protocol: Protocol, chunks: seq<string>, blocks: seq<Block>, tail: Tail)
    requires StreamOk(blocks, tail) && !tail.Broken? && Concat(chunks) == StreamText(blocks, tail)
    ensures IsSummary(h, Observed(h, protocol, chunks), Chunks(h, protocol, StreamCalls(h, blocks, tail)))
  {
    hide IsSummary, Observed, Chunks, Pass, LinesFit, StreamOk, StreamText, StreamCalls;
    StreamReads(h, blocks, tail);
    PassFailsIff(h, Concat(chunks));
    SummaryOfOnePass(h, protocol, chunks);
  }

  /** From bytes to numbers: one data line that decodes to a chunk with a plain usage object, in
  any chunks, is observed as exactly the numbers written in it. */
  lemma OneReportObserved(h: Host, chunks: seq<string>, payload: string, value: Fields, input: nat, output: nat)
    requires '\n' !in payload && !EndsInCR(payload) && |payload| + 5 < MAX_LINE
    requires Concat(chunks) == "data:" + payload + "\n\n"
    requires h.trim(payload) != "[DONE]" && h.decode(h.trim(payload)) == Some(value)
    requires "usage" in value
    requires value["usage"] == Object(map["prompt_tokens" := Num(input), "completion_tokens" := Num(output)])
    ensures Observed(h, Chat, chunks).usage == BridgeUsage(input, output, input + output, 0, 0, 0)
    ensures Observed(h, Chat, chunks).reported
  {
    hide Pass, LinesFit, Observed, Run, Chunks, ChunkReports, MergeAll, Column, IsHighWater, IsLastNonZero, MapAt;
    OneDataLine(h, payload);
    SummaryOfOnePass(h, Chat, chunks);
    OneChunk(h, Dispatch("", h.trim(payload)), value);
    var usage: Fields := map["prompt_tokens" := Num(input), "completion_tokens" := Num(output)];
    UsageAt(value, usage);
    PlainRoundTrip(input, output, 0);
    hide DecodeUsage, Num;
    var report := BridgeUsage(input, output, input + output, 0, 0, 0);
    OneChunkReports(value, report);
    OneMerge(report);
  }

  lemma OneChunk(h: Host, call: Dispatch, value: Fields)
    requires call.data != "[DONE]" && h.decode(call.data) == Some(value)
    ensures Chunks(h, Chat, [call]) == [value]
  {
    assert [call][..0] == [];
    assert Chunks(h, Chat, [call]) == Chunks(h, Chat, []) + [value];
  }

  lemma UsageAt(value: Fields, usage: Fields)
    requires "usage" in value && value["usage"] == Object(usage)
    ensures MapAt(value, ["usage"]) == usage
  {
    assert ["usage"][1..] == [];
    assert AnyAt(Object(value), ["usage"]) == AnyAt(value["usage"], []);
  }

  lemma OneChunkReports(value: Fields, report: BridgeUsage)
    requires |MapAt(value, ["usage"])| > 0 && DecodeUsage(MapAt(value, ["usage"])) == report
    ensures ChunkReports([value]) == [report]
  {
    assert [value][..0] == [];
    assert ChunkReports([value]) == [] + [report];
  }

  lemma OneMerge(report: BridgeUsage)
    requires report.total == report.input + report.output >= 0
    ensures MergeAll(ZERO, [report]) == report
  {
    assert [report][..0] == [];
    assert MergeAll(ZERO, [report]) == Merge(MergeAll(ZERO, []), report);
  }

  /** A stream of another protocol, or one that carries nothing but end markers, teaches nothing. */
  lemma {:induction false} NothingLearned(h: Host, protocol: Protocol, calls: seq<Dispatch>)
    requires protocol != Chat || forall i | 0 <= i < |calls| :: calls[i].data == "[DONE]"
    ensures AbsorbAll(h, protocol, NOTHING, calls) == NOTHING
  {
    if calls != [] {
      NothingLearned(h, protocol, calls[..|calls| - 1]);
    }
  }
}
