/** Gateway event stream to harness chunks: the stream ends with usage, then finish.

Error classification by regular expressions is an input (`classify`), and so is the test of an
error message for context overflow (`overflowText`). */
module StreamChunks {
  import opened Common

  datatype StopReason = StopNormal | StopLength | StopToolUse | StopError | StopAborted

  datatype Usage = Usage(input: int, output: int, cacheRead: int, cacheWrite: int)

  datatype Final = Final(model: string, blocks: nat, usage: Usage, stopReason: StopReason, errorMessage: Option<string>)

  datatype Kind = TextBlock | ReasoningBlock | ToolBlock

  /** A tool start shows the partial call at its index, when there is one. */
  datatype PiEvent =
    | Begin
    | BlockStart(index: int, kind: Kind, partial: Option<(string, string)>)
    | Delta(index: int, kind: Kind, delta: string)
    | BlockEnd(index: int, kind: Kind, content: string)
    | ToolEnd(index: int, id: string, name: string, arguments: string)
    | Terminal(message: Final)

  datatype Reason = Stop | MaxTokens | ToolCalls | Aborted(message: string) | Failed(message: string, code: string)

  datatype Chunk =
    | StartChunk(index: int, kind: Kind)
    | DeltaChunk(index: int, kind: Kind, text: string)
    | ToolDelta(index: int, id: string, shownName: Option<string>, arguments: string)
    | EndChunk(index: int, kind: Kind, text: string)
    | ToolEndChunk(index: int, id: string, name: string, arguments: string)
    | UsageChunk(input: int, output: int, cacheRead: Option<int>, cacheWrite: Option<int>)
    | FinishChunk(reason: Reason)

  /** What a consumer receives; `thrown` when the events stop without an end. */
  datatype Stream = Stream(chunks: seq<Chunk>, thrown: bool)

  datatype Rules = Rules(contextWindow: int, classify: string -> string, overflowText: string -> bool)

  function Known(m: Final, fallback: string): string {
    if m.errorMessage.Some? then m.errorMessage.value else fallback
  }

  function MapStopReason(r: Rules, m: Final): Reason {
    if (m.stopReason.StopNormal? && m.usage.input > r.contextWindow)
       || (m.stopReason.StopError? && m.errorMessage.Some? && r.overflowText(m.errorMessage.value)) then
      Failed(Known(m, "pi-ai detected context overflow for model \"" + m.model + "\""), "CONTEXT_WINDOW_EXCEEDED")
    else
      match m.stopReason
      case StopNormal =>
        if m.blocks == 0 then
          Failed("model \"" + m.model + "\" returned a completed response with no content", "EMPTY_RESPONSE")
        else Stop
      case StopLength => MaxTokens
      case StopToolUse => ToolCalls
      case StopAborted => Aborted(Known(m, "pi-ai stream aborted"))
      case StopError => Failed(Known(m, "pi-ai stream error"), r.classify(Known(m, "")))
  }

  function MapUsage(u: Usage): Chunk {
    UsageChunk(u.input, u.output,
               if u.cacheRead > 0 then Some(u.cacheRead) else None,
               if u.cacheWrite > 0 then Some(u.cacheWrite) else None)
  }

  /** The call a tool delta belongs to: the latest tool start with its index. */
  function LatestStart(events: seq<PiEvent>, index: int): (string, string) {
    if events == [] then ("", "")
    else
      var last := events[|events| - 1];
      if last.BlockStart? && last.kind.ToolBlock? && last.index == index
      then if last.partial.Some? then last.partial.value else ("", "")
      else LatestStart(events[..|events| - 1], index)
  }

  predicate StartsTool(e: PiEvent, index: int) {
    e.BlockStart? && e.kind.ToolBlock? && e.index == index
  }

  /** It is what the last tool start at this index carried, or nothing if there is none. */
  lemma {:induction false} LatestStartIs(events: seq<PiEvent>, index: int)
    ensures if forall i | 0 <= i < |events| :: !StartsTool(events[i], index) then LatestStart(events, index) == ("", "")
            else exists i | 0 <= i < |events| ::
                   && StartsTool(events[i], index)
                   && LatestStart(events, index) == (if events[i].partial.Some? then events[i].partial.value else ("", ""))
                   && forall j | i < j < |events| :: !StartsTool(events[j], index)
  {
    if events != [] {
      var front, last := events[..|events| - 1], events[|events| - 1];
      LatestStartIs(front, index);
      assert events == front + [last];
      if !StartsTool(last, index) {
        assert forall i | 0 <= i < |front| :: events[i] == front[i];
      }
    }
  }

  function NameOf(call: (string, string)): Option<string> {
    if call.1 != "" then Some(call.1) else None
  }

  /** The chunks of one event, given the events before it. */
  function Mapped(r: Rules, before: seq<PiEvent>, e: PiEvent): seq<Chunk> {
    match e
    case Begin => []
    case BlockStart(index, kind, _) => [StartChunk(index, kind)]
    case Delta(index, kind, delta) =>
      if kind.ToolBlock? then
        var call := LatestStart(before, index);
        [ToolDelta(index, call.0, NameOf(call), delta)]
      else [DeltaChunk(index, kind, delta)]
    case BlockEnd(index, kind, content) => [EndChunk(index, kind, content)]
    case ToolEnd(index, id, name, arguments) => [ToolEndChunk(index, id, name, arguments)]
    case Terminal(message) => [MapUsage(message.usage), FinishChunk(MapStopReason(r, message))]
  }

  function MappedAll(r: Rules, events: seq<PiEvent>): seq<Chunk> {
    if events == [] then []
    else
      var front := events[..|events| - 1];
      MappedAll(r, front) + Mapped(r, front, events[|events| - 1])
  }

  predicate Open(events: seq<PiEvent>) {
    forall e | e in events :: !e.Terminal?
  }

  /** The events up to and including the first terminal one. */
  function UpToEnd(events: seq<PiEvent>): seq<PiEvent> {
    if events == [] then []
    else if events[0].Terminal? then [events[0]]
    else [events[0]] + UpToEnd(events[1..])
  }

  /** The map of the code holds the latest start of every index. */
  ghost predicate Holds(toolIds: map<int, (string, string)>, events: seq<PiEvent>) {
    forall index :: (if index in toolIds then toolIds[index] else ("", "")) == LatestStart(events, index)
  }

  /** One event's chunks, and the map after it. */
  method Translate(r: Rules, toolIds: map<int, (string, string)>, ghost before: seq<PiEvent>, event: PiEvent)
    returns (next: map<int, (string, string)>, chunks: seq<Chunk>)
    requires Holds(toolIds, before)
    ensures Holds(next, before + [event]) && chunks == Mapped(r, before, event)
  {
    hide MapUsage, MapStopReason, LatestStart, NameOf;
    next := toolIds;
    NextStart(before, event);
    match event
    case Begin => chunks := [];
    case BlockStart(index, kind, partial) =>
      if kind.ToolBlock? {
        next := toolIds[index := if partial.Some? then partial.value else ("", "")];
      }
      chunks := [StartChunk(index, kind)];
    case Delta(index, kind, delta) =>
      if kind.ToolBlock? {
        var known := if index in toolIds then toolIds[index] else ("", "");
        chunks := [ToolDelta(index, known.0, NameOf(known), delta)];
      } else {
        chunks := [DeltaChunk(index, kind, delta)];
      }
    case BlockEnd(index, kind, content) => chunks := [EndChunk(index, kind, content)];
    case ToolEnd(index, id, name, arguments) => chunks := [ToolEndChunk(index, id, name, arguments)];
    case Terminal(message) => chunks := [MapUsage(message.usage), FinishChunk(MapStopReason(r, message))];
  }

  method ToStreamChunks(r: Rules, events: seq<PiEvent>) returns (s: Stream)
    ensures s == Stream(MappedAll(r, UpToEnd(events)), Open(events))
  {
    hide Mapped, Holds, UpToEnd;
    var toolIds: map<int, (string, string)> := map[];
    var chunks: seq<Chunk> := [];
    NoStarts();
    for i := 0 to |events|
      invariant Open(events[..i])
      invariant chunks == MappedAll(r, events[..i])
      invariant Holds(toolIds, events[..i])
    {
      assert events[..i + 1] == events[..i] + [events[i]];
      assert events[..i + 1][..i] == events[..i];
      var more;
      toolIds, more := Translate(r, toolIds, events[..i], events[i]);
      chunks := chunks + more;
      if events[i].Terminal? {
        EndsAt(events, i);
        assert events[i] in events;
        return Stream(chunks, false);
      }
    }
    assert events[..|events|] == events;
    NeverEnds(events);
    s := Stream(chunks, true);
  }

  lemma NoStarts()
    ensures Holds(map[], [])
  {
  }

  lemma NextStart(events: seq<PiEvent>, e: PiEvent)
    ensures forall index :: LatestStart(events + [e], index)
              == if e.BlockStart? && e.kind.ToolBlock? && e.index == index
                 then (if e.partial.Some? then e.partial.value else ("", ""))
                 else LatestStart(events, index)
  {
    assert (events + [e])[..|events|] == events;
  }

  lemma {:induction false} EndsAt(events: seq<PiEvent>, i: nat)
    requires i < |events| && events[i].Terminal? && Open(events[..i])
    ensures UpToEnd(events) == events[..i + 1]
  {
    if i == 0 {
      assert events[..1] == [events[0]];
    } else {
      assert events[0] in events[..i];
      assert events[1..][..i - 1] == events[..i][1..];
      EndsAt(events[1..], i - 1);
      assert events[..i + 1] == [events[0]] + events[1..][..i];
    }
  }

  lemma {:induction false} NeverEnds(events: seq<PiEvent>)
    requires Open(events)
    ensures UpToEnd(events) == events
  {
    if events != [] {
      NeverEnds(events[1..]);
    }
  }

  // ---- What the chunks are -----------------------------------------------------------------

  /** The finish reason, both ways: too large a prompt first, where the stream ended normally or in
  error; then what the gateway said. */
  ghost predicate Explains(r: Rules, m: Final, f: Reason) {
    var overflow := (m.stopReason.StopNormal? && m.usage.input > r.contextWindow)
                    || (m.stopReason.StopError? && m.errorMessage.Some? && r.overflowText(m.errorMessage.value));
    && (f == Stop <==> m.stopReason.StopNormal? && !overflow && m.blocks > 0)
    && (f == MaxTokens <==> m.stopReason.StopLength?)
    && (f == ToolCalls <==> m.stopReason.StopToolUse?)
    && (f.Aborted? <==> m.stopReason.StopAborted?)
    && (overflow ==> f.Failed? && f.code == "CONTEXT_WINDOW_EXCEEDED")
    && (m.stopReason.StopNormal? && !overflow && m.blocks == 0 ==> f.Failed? && f.code == "EMPTY_RESPONSE")
    && (m.stopReason.StopError? && !overflow ==>
          f.Failed? && f.code == r.classify(if m.errorMessage.Some? then m.errorMessage.value else ""))
    && (m.errorMessage.Some? && (f.Aborted? || m.stopReason.StopError? || overflow) ==>
          f.message == m.errorMessage.value)
  }

  lemma StopReasonIs(r: Rules, m: Final)
    ensures Explains(r, m, MapStopReason(r, m))
  {
  }

  /** What a reader adds up from a usage chunk. */
  function PromptTokens(c: Chunk): int
    requires c.UsageChunk?
  {
    c.input + (if c.cacheRead.Some? then c.cacheRead.value else 0) + (if c.cacheWrite.Some? then c.cacheWrite.value else 0)
  }

  /** Usage reads back: input, cached input and output are the gateway's; only counts that are not
  positive are left out. */
  ghost predicate ReadsBack(u: Usage, c: Chunk) {
    && c.UsageChunk? && c.input == u.input && c.output == u.output
    && (c.cacheRead.Some? <==> u.cacheRead > 0) && (c.cacheRead.Some? ==> c.cacheRead.value == u.cacheRead)
    && (c.cacheWrite.Some? <==> u.cacheWrite > 0)
    && PromptTokens(c) == u.input + (if u.cacheRead > 0 then u.cacheRead else 0)
                          + (if u.cacheWrite > 0 then u.cacheWrite else 0)
  }

  lemma UsageReadsBack(u: Usage)
    ensures ReadsBack(u, MapUsage(u))
  {
  }

  /** The chunk says the same thing about the same block as the event. */
  ghost predicate Mirrors(e: PiEvent, c: Chunk) {
    match e
    case Begin => false
    case BlockStart(index, kind, _) => c == StartChunk(index, kind)
    case Delta(index, kind, delta) =>
      if kind == ToolBlock then c.ToolDelta? && c.index == index && c.arguments == delta
      else c == DeltaChunk(index, kind, delta)
    case BlockEnd(index, kind, content) => c == EndChunk(index, kind, content)
    case ToolEnd(index, id, name, arguments) => c == ToolEndChunk(index, id, name, arguments)
    case Terminal(_) => false
  }

  function Plain(events: seq<PiEvent>): seq<PiEvent> {
    if events == [] then []
    else Plain(events[..|events| - 1]) + (if events[|events| - 1].Begin? then [] else [events[|events| - 1]])
  }

  /** Before its end a stream gives one chunk for every event but the opening one, in order. */
  lemma {:induction false} ChunksMirrorEvents(r: Rules, events: seq<PiEvent>)
    requires Open(events)
    ensures |MappedAll(r, events)| == |Plain(events)|
    ensures forall i | 0 <= i < |Plain(events)| :: Mirrors(Plain(events)[i], MappedAll(r, events)[i])
  {
    hide Mirrors, Mapped;
    if events != [] {
      var front, last := events[..|events| - 1], events[|events| - 1];
      assert last in events;
      ChunksMirrorEvents(r, front);
      OneMirrors(r, front, last);
    }
  }

  lemma OneMirrors(r: Rules, before: seq<PiEvent>, e: PiEvent)
    requires !e.Terminal?
    ensures e.Begin? ==> Mapped(r, before, e) == []
    ensures !e.Begin? ==> |Mapped(r, before, e)| == 1 && Mirrors(e, Mapped(r, before, e)[0])
  {
    hide LatestStart;
  }

  /** A tool delta carries what the last tool start of its index showed, wherever that was: the id
  always, the name unless it is empty. */
  lemma ToolDeltaLabels(r: Rules, before: seq<PiEvent>, i: nat, index: int, delta: string)
    requires i < |before| && StartsTool(before[i], index) && forall j | i < j < |before| :: !StartsTool(before[j], index)
    ensures var (id, name) := if before[i].partial.Some? then before[i].partial.value else ("", "");
            Mapped(r, before, Delta(index, ToolBlock, delta))
            == [ToolDelta(index, id, if name == "" then None else Some(name), delta)]
  {
    hide LatestStart;
    LatestStartIs(before, index);
  }

  predicate Closing(c: Chunk) {
    c.UsageChunk? || c.FinishChunk?
  }

  lemma {:induction false} OpenNeverCloses(r: Rules, events: seq<PiEvent>)
    requires Open(events)
    ensures forall c | c in MappedAll(r, events) :: !Closing(c)
  {
    if events != [] {
      OpenNeverCloses(r, events[..|events| - 1]);
      assert events[|events| - 1] in events;
    }
  }

  lemma EndsInTwo(r: Rules, before: seq<PiEvent>, message: Final, after: seq<PiEvent>)
    requires Open(before)
    ensures var events := before + [Terminal(message)] + after;
            && !Open(events)
            && MappedAll(r, UpToEnd(events))
               == MappedAll(r, before) + [MapUsage(message.usage), FinishChunk(MapStopReason(r, message))]
  {
    hide MapUsage, MapStopReason, UpToEnd;
    var events := before + [Terminal(message)] + after;
    assert events[..|before|] == before && events[|before|] == Terminal(message);
    EndsAt(events, |before|);
    assert events[..|before| + 1] == before + [Terminal(message)];
    assert (before + [Terminal(message)])[..|before|] == before;
    assert events[|before|] in events;
  }

  /** Whatever follows the first terminal event, the consumer gets the chunks of what came before
  it, then one usage that reads back as the gateway's and one finish that says how it ended, and
  nothing else. */
  lemma TerminatedStream(r: Rules, before: seq<PiEvent>, message: Final, after: seq<PiEvent>)
    requires Open(before)
    ensures var events := before + [Terminal(message)] + after;
            var chunks := MappedAll(r, UpToEnd(events));
            var n := |MappedAll(r, before)|;
            && !Open(events)
            && |chunks| == n + 2 && chunks[..n] == MappedAll(r, before)
            && (forall c | c in MappedAll(r, before) :: !Closing(c))
            && ReadsBack(message.usage, chunks[n])
            && chunks[n + 1].FinishChunk? && Explains(r, message, chunks[n + 1].reason)
  {
    hide MapUsage, MapStopReason, ReadsBack, Explains, UpToEnd, MappedAll, Open;
    UsageReadsBack(message.usage);
    StopReasonIs(r, message);
    EndsInTwo(r, before, message, after);
    OpenNeverCloses(r, before);
  }
}
