/** The pass-through usage observer: bytes arrive in arbitrary chunks, usage comes out. */
module Observer {
  import opened Common
  import opened Json
  import opened Usage
  import opened ChatParser
  import opened Sse

  datatype Protocol = Chat | Responses | Anthropic

  /** What the observer has learned so far. */
  datatype Tally = Tally(parser: State, usage: BridgeUsage, reported: bool)

  /** The whole observer: its tally and the bytes of the frame still open. */
  datatype Observation = Observation(tally: Tally, buffer: string)

  const NOTHING := Tally(INITIAL, ZERO, false)

  function Reports(events: seq<Event>): seq<BridgeUsage> {
    if events == [] then []
    else
      var front, last := Reports(events[..|events| - 1]), events[|events| - 1];
      if last.UsageReport? then front + [last.usage] else front
  }

  /** One dispatched block. The end marker, undecodable data and other protocols change nothing. */
  function Absorb(h: Host, protocol: Protocol, t: Tally, call: Dispatch): Tally {
    if call.data == "[DONE]" then t
    else match h.decode(call.data)
      case None => t
      case Some(value) =>
        if protocol != Chat then t
        else
          var parsed := Run(t.parser, Linear(h, value));
          var reports := Reports(parsed.events);
          Tally(parsed.state, MergeAll(t.usage, reports), t.reported || reports != [])
  }

  function AbsorbAll(h: Host, protocol: Protocol, t: Tally, calls: seq<Dispatch>): Tally {
    if calls == [] then t
    else Absorb(h, protocol, AbsorbAll(h, protocol, t, calls[..|calls| - 1]), calls[|calls| - 1])
  }

  lemma {:induction false} AbsorbAppend(h: Host, protocol: Protocol, t: Tally, a: seq<Dispatch>, b: seq<Dispatch>)
    ensures AbsorbAll(h, protocol, t, a + b) == AbsorbAll(h, protocol, AbsorbAll(h, protocol, t, a), b)
  {
    hide Absorb;
    if b == [] {
      assert a + b == a;
    } else {
      AbsorbAppend(h, protocol, t, a, b[..|b| - 1]);
      assert (a + b)[..|a + b| - 1] == a + b[..|b| - 1];
    }
  }

  // ---- Write and Finish on values ----------------------------------------------------------

  function Written(h: Host, protocol: Protocol, o: Observation, data: string): Observation {
    var cut := CutFrames(o.buffer + data);
    Observation(AbsorbAll(h, protocol, o.tally, PieceCalls(h, cut.frames)), cut.rest)
  }

  function Finished(h: Host, protocol: Protocol, o: Observation): Observation {
    Observation(if o.buffer == "" then o.tally
                else AbsorbAll(h, protocol, o.tally, Pass(h, o.buffer).calls), "")
  }

  function WrittenAll(h: Host, protocol: Protocol, chunks: seq<string>): Observation {
    if chunks == [] then Observation(NOTHING, "")
    else Written(h, protocol, WrittenAll(h, protocol, chunks[..|chunks| - 1]), chunks[|chunks| - 1])
  }

  /** A stream cut into `chunks`, observed to its end. */
  function Observed(h: Host, protocol: Protocol, chunks: seq<string>): Tally {
    Finished(h, protocol, WrittenAll(h, protocol, chunks)).tally
  }

  lemma {:induction false} PieceCallsAppend(h: Host, a: seq<string>, b: seq<string>)
    ensures PieceCalls(h, a + b) == PieceCalls(h, a) + PieceCalls(h, b)
  {
    hide Pass, PieceCalls;
    if a == [] {
      assert a + b == b;
      NoPieces(h);
    } else {
      var first, rest := a[0], a[1..];
      PieceCallsAppend(h, rest, b);
      assert a == [first] + rest && a + b == [first] + (rest + b);
      FirstPiece(h, first, rest);
      FirstPiece(h, first, rest + b);
    }
  }

  /** After any writes, the observer is where cutting everything written at once would put it. */
  lemma {:induction false} WrittenAllIsOneCut(h: Host, protocol: Protocol, chunks: seq<string>)
    ensures var cut := CutFrames(Concat(chunks));
            WrittenAll(h, protocol, chunks)
            == Observation(AbsorbAll(h, protocol, NOTHING, PieceCalls(h, cut.frames)), cut.rest)
  {
    hide Pass, Absorb, CutFrames;
    if chunks == [] {
      EmptyCut();
    } else {
      var front, last := chunks[..|chunks| - 1], chunks[|chunks| - 1];
      WrittenAllIsOneCut(h, protocol, front);
      ConcatSnoc(front, last);
      assert chunks == front + [last];
      CutAppend(Concat(front), last);
      var first := CutFrames(Concat(front));
      var second := CutFrames(first.rest + last);
      PieceCallsAppend(h, first.frames, second.frames);
      AbsorbAppend(h, protocol, NOTHING, PieceCalls(h, first.frames), PieceCalls(h, second.frames));
    }
  }

  lemma EmptyCut()
    ensures CutFrames("") == Cut([], "")
  {
    hide Index, NextBoundary;
    BoundaryIsLeftmost("");
  }

  /** The observation is the piece-by-piece reading of the whole stream, whatever the lines. */
  lemma ObservedIsFramed(h: Host, protocol: Protocol, chunks: seq<string>)
    ensures Observed(h, protocol, chunks)
         == AbsorbAll(h, protocol, NOTHING, PieceCalls(h, Pieces(Concat(chunks))))
  {
    hide Pass, Absorb, CutFrames, AbsorbAll;
    WrittenAllIsOneCut(h, protocol, chunks);
    var cut := CutFrames(Concat(chunks));
    if cut.rest == "" {
      assert Pieces(Concat(chunks)) == cut.frames;
    } else {
      PieceCallsAppend(h, cut.frames, [cut.rest]);
      assert PieceCalls(h, [cut.rest]) == Pass(h, cut.rest).calls + PieceCalls(h, []);
      assert PieceCalls(h, [cut.rest]) == Pass(h, cut.rest).calls;
      AbsorbAppend(h, protocol, NOTHING, PieceCalls(h, cut.frames), Pass(h, cut.rest).calls);
    }
  }

  /** How a stream is cut into writes has no influence on usage, reported flag or parser state. */
  lemma ChunkingIndependence(h: Host, protocol: Protocol, chunks: seq<string>, others: seq<string>)
    requires Concat(chunks) == Concat(others)
    ensures Observed(h, protocol, chunks) == Observed(h, protocol, others)
  {
    hide Pass, Absorb, CutFrames, AbsorbAll, Observed;
    ObservedIsFramed(h, protocol, chunks);
    ObservedIsFramed(h, protocol, others);
  }

  /** With every line under the scanner's limit, the observation is one unframed pass. */
  lemma ObservedIsOnePass(h: Host, protocol: Protocol, chunks: seq<string>)
    requires LinesFit(Concat(chunks))
    ensures Observed(h, protocol, chunks) == AbsorbAll(h, protocol, NOTHING, Pass(h, Concat(chunks)).calls)
  {
    hide Pass, Absorb, CutFrames, AbsorbAll, Observed;
    ObservedIsFramed(h, protocol, chunks);
    FramedIsSingle(h, Concat(chunks));
  }

  // ---- The observer object -----------------------------------------------------------------

  class StreamUsageObserver {
    const h: Host
    const protocol: Protocol
    const parser: BridgeStreamParser
    var buffer: string
    var usage: BridgeUsage
    var reported: bool

    constructor (h: Host, protocol: Protocol)
      ensures this.h == h && this.protocol == protocol && fresh(parser)
      ensures Valid() && Model() == Observation(NOTHING, "")
    {
      this.h, this.protocol := h, protocol;
      parser := new BridgeStreamParser();
      buffer, usage, reported := "", ZERO, false;
    }

    ghost predicate Valid()
      reads this, parser
    {
      parser.Valid()
    }

    ghost function Learned(): Tally
      reads this, parser
    {
      Tally(parser.Model(), usage, reported)
    }

    ghost function Model(): Observation
      reads this, parser
    {
      Observation(Learned(), buffer)
    }

    /** The loop over a chunk's events that looks for usage. */
    method MergeUsage(events: seq<Event>)
      modifies this`usage, this`reported
      ensures usage == MergeAll(old(usage), Reports(events))
      ensures reported == (old(reported) || Reports(events) != [])
    {
      hide Merge;
      for i := 0 to |events|
        invariant usage == MergeAll(old(usage), Reports(events[..i]))
        invariant reported == (old(reported) || Reports(events[..i]) != [])
      {
        assert events[..i + 1][..i] == events[..i];
        if events[i].UsageReport? {
          reported := true;
          MergeSnoc(old(usage), Reports(events[..i]), events[i].usage);
          usage := Merge(usage, events[i].usage);
        }
      }
      assert events[..|events|] == events;
    }

    /** The handler `consume` passes to the reader. */
    method Handle(call: Dispatch)
      requires Valid()
      modifies this`usage, this`reported, parser
      ensures Valid() && Learned() == Absorb(h, protocol, old(Learned()), call)
    {
      hide Run, Linear, Reports, MergeAll;
      if call.data == "[DONE]" {
        return;
      }
      var decoded := h.decode(call.data);
      if decoded.None? || protocol != Chat {
        return;
      }
      var events := parser.ParseChat(h, decoded.value);
      MergeUsage(events);
    }

    method Consume(frame: string)
      requires Valid()
      modifies this`usage, this`reported, parser
      ensures Valid() && Learned() == AbsorbAll(h, protocol, old(Learned()), Pass(h, frame).calls)
    {
      hide Absorb, Pass;
      var calls, _ := ReadSse(h, frame, (_: seq<Dispatch>) => true);
      for i := 0 to |calls|
        invariant Valid() && Learned() == AbsorbAll(h, protocol, old(Learned()), calls[..i])
      {
        assert calls[..i + 1][..i] == calls[..i];
        Handle(calls[i]);
      }
      assert calls[..|calls|] == calls;
    }

    method Write(data: string)
      requires Valid()
      modifies this, parser
      ensures Valid() && Model() == Written(h, protocol, old(Model()), data)
    {
      hide Absorb, AbsorbAll, Pass, PieceCalls, NextBoundary, CutFrames;
      buffer := buffer + data;
      ghost var whole := CutFrames(buffer);
      ghost var frames := [];
      AbsorbNone(h, protocol, Learned());
      var going := true;
      while going
        invariant Valid()
        invariant CutFrames(buffer).rest == whole.rest && frames + CutFrames(buffer).frames == whole.frames
        invariant Learned() == AbsorbAll(h, protocol, old(Learned()), PieceCalls(h, frames))
        invariant !going ==> NextBoundary(buffer).0 < 0
        decreases |buffer| + (if going then 1 else 0)
      {
        CutStep(buffer);
        var (index, width) := NextBoundary(buffer);
        if index < 0 {
          going := false;
        } else {
          var frame := buffer[..index + width];
          buffer := buffer[index + width..];
          ghost var before := Learned();
          Consume(frame);
          PieceCallsSnoc(h, frames, frame);
          AbsorbAppend(h, protocol, old(Learned()), PieceCalls(h, frames), Pass(h, frame).calls);
          assert frames + ([frame] + CutFrames(buffer).frames) == (frames + [frame]) + CutFrames(buffer).frames;
          frames := frames + [frame];
        }
      }
      CutStep(buffer);
      assert frames + [] == frames;
    }

    method Finish() returns (total: BridgeUsage)
      requires Valid()
      modifies this, parser
      ensures Valid() && Model() == Finished(h, protocol, old(Model()))
      ensures total == usage
    {
      if |buffer| > 0 {
        Consume(buffer);
        buffer := "";
      }
      total := usage;
    }
  }

  lemma MergeSnoc(d: BridgeUsage, reports: seq<BridgeUsage>, r: BridgeUsage)
    ensures MergeAll(d, reports + [r]) == Merge(MergeAll(d, reports), r)
  {
    assert (reports + [r])[..|reports|] == reports;
  }

  lemma AbsorbNone(h: Host, protocol: Protocol, t: Tally)
    ensures AbsorbAll(h, protocol, t, PieceCalls(h, [])) == t
  {
  }

  lemma PieceCallsSnoc(h: Host, pieces: seq<string>, piece: string)
    ensures PieceCalls(h, pieces + [piece]) == PieceCalls(h, pieces) + Pass(h, piece).calls
  {
    hide Pass;
    PieceCallsAppend(h, pieces, [piece]);
    assert PieceCalls(h, [piece]) == Pass(h, piece).calls + PieceCalls(h, []);
  }

  /** A client copies the upstream body through the observer chunk by chunk, then finishes it. */
  method ObserveStream(h: Host, protocol: Protocol, chunks: seq<string>)
    returns (usage: BridgeUsage, reported: bool)
    ensures usage == AbsorbAll(h, protocol, NOTHING, PieceCalls(h, Pieces(Concat(chunks)))).usage
    ensures reported == AbsorbAll(h, protocol, NOTHING, PieceCalls(h, Pieces(Concat(chunks)))).reported
    ensures LinesFit(Concat(chunks)) ==>
              usage == AbsorbAll(h, protocol, NOTHING, Pass(h, Concat(chunks)).calls).usage
  {
    hide Written, Finished, AbsorbAll, Pass, LinesFit, Pieces, PieceCalls;
    var observer := new StreamUsageObserver(h, protocol);
    for i := 0 to |chunks|
      invariant observer.Valid() && observer.h == h && observer.protocol == protocol
      invariant fresh(observer) && fresh(observer.parser)
      invariant observer.Model() == WrittenAll(h, protocol, chunks[..i])
    {
      assert chunks[..i + 1][..i] == chunks[..i];
      observer.Write(chunks[i]);
    }
    assert chunks[..|chunks|] == chunks;
    usage := observer.Finish();
    reported := observer.reported;
    ObservedIsFramed(h, protocol, chunks);
    if LinesFit(Concat(chunks)) {
      ObservedIsOnePass(h, protocol, chunks);
    }
  }
}
