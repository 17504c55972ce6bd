/** Event-stream framing and line reading, on the code's own rules.

Bytes are characters here. Departures of the code from the HTML Living Standard (section 9.2.6)
are kept: a lone CR does not end a line, field values are trimmed on both sides, a block the
input leaves open is still dispatched, and up to two CRs are dropped before a line feed because
the line scanner drops one and the reader another. */
module Sse {
  import opened Common
  import opened Json

  /** A scanner line may not hold this many bytes before its line feed. */
  const MAX_LINE := 16 * 1024 * 1024

  // ---- Frame boundaries --------------------------------------------------------------------

  predicate OccursAt(s: string, pattern: string, i: int) {
    0 <= i <= |s| - |pattern| && s[i..i + |pattern|] == pattern
  }

  /** Leftmost occurrence of `pattern`, or -1. */
  function Index(s: string, pattern: string): (i: int)
    ensures -1 <= i
    ensures i >= 0 ==> OccursAt(s, pattern, i)
    ensures forall j | 0 <= j && (i < 0 || j < i) :: !OccursAt(s, pattern, j)
  {
    if |s| < |pattern| then -1
    else if s[..|pattern|] == pattern then 0
    else if s == "" then -1
    else
      var i := Index(s[1..], pattern);
      assert forall j | 1 <= j :: OccursAt(s, pattern, j) ==> OccursAt(s[1..], pattern, j - 1);
      if i < 0 then -1 else i + 1
  }

  function NextBoundary(data: string): (int, int) {
    var lf, crlf := Index(data, "\n\n"), Index(data, "\r\n\r\n");
    if lf < 0 then
      if crlf < 0 then (-1, 0) else (crlf, 4)
    else if crlf >= 0 && crlf < lf then (crlf, 4)
    else (lf, 2)
  }

  /** One of the two delimiters, spelled out byte by byte. */
  predicate DelimiterAt(data: string, i: int, width: int) {
    && 0 <= i <= |data| - width
    && ((width == 2 && data[i] == data[i + 1] == '\n')
        || (width == 4 && data[i] == data[i + 2] == '\r' && data[i + 1] == data[i + 3] == '\n'))
  }

  lemma Delimiters(data: string, i: int)
    ensures OccursAt(data, "\n\n", i) <==> DelimiterAt(data, i, 2)
    ensures OccursAt(data, "\r\n\r\n", i) <==> DelimiterAt(data, i, 4)
  {
    if DelimiterAt(data, i, 2) {
      assert data[i..i + 2] == "\n\n";
    }
    if DelimiterAt(data, i, 4) {
      assert data[i..i + 4] == "\r\n\r\n";
    }
    if OccursAt(data, "\n\n", i) {
      assert data[i] == data[i..i + 2][0] && data[i + 1] == data[i..i + 2][1];
    }
    if OccursAt(data, "\r\n\r\n", i) {
      assert data[i] == data[i..i + 4][0] && data[i + 1] == data[i..i + 4][1];
      assert data[i + 2] == data[i..i + 4][2] && data[i + 3] == data[i..i + 4][3];
    }
  }

  /** The boundary is the leftmost delimiter of either kind. */
  lemma BoundaryIsLeftmost(data: string)
    ensures var (i, width) := NextBoundary(data);
            && (i >= 0 ==> DelimiterAt(data, i, width))
            && forall j, w | 0 <= j && (i < 0 || j < i) :: !DelimiterAt(data, j, w)
  {
    forall j {
      Delimiters(data, j);
    }
  }

  /** Appending bytes never moves a boundary that is already there. */
  lemma BoundaryStable(data: string, more: string)
    requires NextBoundary(data).0 >= 0
    ensures NextBoundary(data + more) == NextBoundary(data)
  {
    hide NextBoundary;
    BoundaryIsLeftmost(data);
    BoundaryIsLeftmost(data + more);
    var (i, width) := NextBoundary(data);
    assert DelimiterAt(data + more, i, width);
    var (j, w) := NextBoundary(data + more);
    assert j < i && j + w <= |data| ==> DelimiterAt(data, j, w);
  }

  // ---- Cutting a buffer into frames --------------------------------------------------------

  datatype Cut = Cut(frames: seq<string>, rest: string)

  /** Every complete frame of a buffer, and the bytes after the last one. */
  function CutFrames(data: string): Cut
    decreases |data|
  {
    var (i, width) := NextBoundary(data);
    if i < 0 then Cut([], data)
    else
      BoundaryIsLeftmost(data);
      var tail := CutFrames(data[i + width..]);
      Cut([data[..i + width]] + tail.frames, tail.rest)
  }

  lemma CutStep(data: string)
    ensures var (i, width) := NextBoundary(data);
            && (i < 0 ==> CutFrames(data) == Cut([], data))
            && (i >= 0 ==>
                  && 0 < i + width <= |data| && DelimiterAt(data, i, width)
                  && var tail := CutFrames(data[i + width..]);
                     CutFrames(data) == Cut([data[..i + width]] + tail.frames, tail.rest))
  {
    hide Index, NextBoundary;
    BoundaryIsLeftmost(data);
  }

  /** Cutting may be done as bytes arrive: the frames of `a + b` are those of `a` followed by
  those of what `a` left over plus `b`. */
  lemma {:induction false} CutAppend(a: string, b: string)
    ensures var first := CutFrames(a);
            var second := CutFrames(first.rest + b);
            CutFrames(a + b) == Cut(first.frames + second.frames, second.rest)
    decreases |a|
  {
    hide NextBoundary, CutFrames;
    var (i, width) := NextBoundary(a);
    CutStep(a);
    if i >= 0 {
      var frame, rest := a[..i + width], a[i + width..];
      BoundaryStable(a, b);
      CutStep(a + b);
      CutAppend(rest, b);
      assert (a + b)[i + width..] == rest + b && (a + b)[..i + width] == frame;
      var first, second := CutFrames(rest), CutFrames(CutFrames(rest).rest + b);
      assert ([frame] + first.frames) + second.frames == [frame] + (first.frames + second.frames);
    } else {
      assert [] + CutFrames(a + b).frames == CutFrames(a + b).frames;
    }
  }

  ghost predicate IsFrame(frame: string) {
    exists i, width :: i + width == |frame| && DelimiterAt(frame, i, width)
  }

  /** Nothing is lost: frames and remainder concatenate to the buffer, and every frame ends in a
  delimiter. */
  lemma {:induction false} CutCovers(data: string)
    ensures Concat(CutFrames(data).frames) + CutFrames(data).rest == data
    ensures forall frame | frame in CutFrames(data).frames :: IsFrame(frame)
    decreases |data|
  {
    hide NextBoundary, CutFrames;
    var (i, width) := NextBoundary(data);
    CutStep(data);
    if i >= 0 {
      var frame, rest := data[..i + width], data[i + width..];
      CutCovers(rest);
      assert DelimiterAt(frame, i, width);
      var tail := CutFrames(rest);
      assert ([frame] + tail.frames)[1..] == tail.frames;
      assert (frame + Concat(tail.frames)) + tail.rest == frame + (Concat(tail.frames) + tail.rest);
      assert data == frame + rest;
    } else {
      assert "" + data == data;
    }
  }

  /** All the pieces an observer reads: complete frames, then a non-empty remainder. */
  function Pieces(data: string): seq<string> {
    var cut := CutFrames(data);
    cut.frames + (if cut.rest == "" then [] else [cut.rest])
  }

  // ---- Lines -------------------------------------------------------------------------------

  /** Line-feed separated lines, the last one without a line feed if it is not empty. */
  function RawLines(data: string): seq<string>
    decreases |data|
  {
    var i := Index(data, "\n");
    if i < 0 then if data == "" then [] else [data]
    else [data[..i]] + RawLines(data[i + 1..])
  }

  lemma LineFeeds(s: string)
    ensures forall k :: OccursAt(s, "\n", k) <==> 0 <= k < |s| && s[k] == '\n'
  {
    forall k | 0 <= k < |s| ensures s[k..k + 1] == [s[k]] {
    }
  }

  lemma FirstLineFeed(a: string, b: string)
    requires '\n' in a
    ensures 0 <= Index(a, "\n") < |a|
    ensures Index(a + b, "\n") == Index(a, "\n")
  {
    hide Index;
    LineFeeds(a);
    LineFeeds(a + b);
    var k :| 0 <= k < |a| && a[k] == '\n';
    assert OccursAt(a, "\n", k);
    assert OccursAt(a + b, "\n", Index(a, "\n"));
    var j := Index(a + b, "\n");
    assert j < |a| ==> OccursAt(a, "\n", j);
  }

  lemma {:induction false} LinesAppend(a: string, b: string)
    requires a == "" || a[|a| - 1] == '\n'
    ensures RawLines(a + b) == RawLines(a) + RawLines(b)
    decreases |a|
  {
    hide Index;
    if a == "" {
      assert a + b == b;
    } else {
      FirstLineFeed(a, b);
      var i := Index(a, "\n");
      assert (a + b)[i + 1..] == a[i + 1..] + b;
      assert (a + b)[..i] == a[..i];
      LinesAppend(a[i + 1..], b);
    }
  }

  lemma OneLine(line: string)
    requires '\n' !in line
    ensures RawLines(line + "\n") == [line]
  {
    hide Index;
    var all := line + "\n";
    assert OccursAt(all, "\n", |line|);
    var i := Index(all, "\n");
    assert all[i..i + 1] == "\n" && all[i] == '\n';
    assert all[..i] == line && all[i + 1..] == "";
  }

  /** A frame's last line is blank: empty, or one CR. */
  lemma FrameEndsBlank(frame: string)
    requires IsFrame(frame)
    ensures frame[|frame| - 1] == '\n'
    ensures var lines := RawLines(frame); lines != [] && lines[|lines| - 1] in ["", "\r"]
  {
    var i, width :| i + width == |frame| && DelimiterAt(frame, i, width);
    var blank := if width == 2 then "" else "\r";
    var head := frame[..|frame| - |blank| - 1];
    assert frame == head + (blank + "\n");
    LinesAppend(head, blank + "\n");
    OneLine(blank);
  }

  // ---- The reader --------------------------------------------------------------------------

  datatype Dispatch = Dispatch(eventName: string, data: string)

  datatype Reader = Reader(eventName: string, dataLines: seq<string>, calls: seq<Dispatch>, failed: bool)

  const FRESH := Reader("", [], [], false)

  function Join(parts: seq<string>, separator: string): string {
    if parts == [] then ""
    else if |parts| == 1 then parts[0]
    else parts[0] + separator + Join(parts[1..], separator)
  }

  function DropCR(line: string): string {
    if line != "" && line[|line| - 1] == '\r' then line[..|line| - 1] else line
  }

  function Flush(r: Reader): Reader {
    if r.dataLines == [] then r.(eventName := "")
    else Reader("", [], r.calls + [Dispatch(r.eventName, Join(r.dataLines, "\n"))], r.failed)
  }

  function ReadLine(h: Host, r: Reader, raw: string): Reader {
    if r.failed then r
    else if |raw| >= MAX_LINE then r.(failed := true)
    else
      var line := DropCR(DropCR(raw));
      if line == "" then Flush(r)
      else if ":" <= line then r
      else if "event:" <= line then r.(eventName := h.trim(line[6..]))
      else if "data:" <= line then r.(dataLines := r.dataLines + [h.trim(line[5..])])
      else r
  }

  function ReadLines(h: Host, r: Reader, lines: seq<string>): Reader {
    if lines == [] then r else ReadLine(h, ReadLines(h, r, lines[..|lines| - 1]), lines[|lines| - 1])
  }

  /** One pass over `data`: what the handler is called with, and whether an over-long line ended
  the pass early. */
  function Pass(h: Host, data: string): Reader {
    var r := ReadLines(h, FRESH, RawLines(data));
    if r.failed then r else Flush(r)
  }

  lemma ReadSnoc(h: Host, r: Reader, lines: seq<string>, raw: string)
    ensures ReadLines(h, r, lines + [raw]) == ReadLine(h, ReadLines(h, r, lines), raw)
  {
    assert (lines + [raw])[..|lines|] == lines;
  }

  /** Bytes up to the next line feed, and what follows it: one step of the scanner. */
  method ScanLine(data: string) returns (raw: string, rest: string)
    requires data != ""
    ensures RawLines(data) == [raw] + RawLines(rest)
    ensures |rest| < |data|
  {
    hide Index;
    var i := Index(data, "\n");
    if i < 0 {
      return data, "";
    }
    return data[..i], data[i + 1..];
  }

  /** How a read ends: the handler refused a call, a line was over-long, or neither. */
  datatype Ending = Refused | TooLong | Done

  /** readSSE over an in-memory reader, with the handler's calls collected in order. Whether the
  handler accepts a call may depend on the calls before it; it is not called again after a
  refusal. */
  method ReadSse(h: Host, data: string, accepts: seq<Dispatch> -> bool) returns (calls: seq<Dispatch>, ending: Ending)
    ensures calls <= Pass(h, data).calls
    ensures forall n | 0 < n < |calls| :: accepts(calls[..n])
    ensures ending.Refused? <==> calls != [] && !accepts(calls)
    ensures !ending.Refused? ==> calls == Pass(h, data).calls && (ending.TooLong? <==> Pass(h, data).failed)
  {
    hide Index, ReadLines, RawLines, Join;
    var eventName, dataLines := "", [];
    calls := [];
    var rest := data;
    ghost var lines := [];
    ReadNone(h, FRESH);
    while rest != ""
      invariant RawLines(data) == lines + RawLines(rest)
      invariant Reader(eventName, dataLines, calls, false) == ReadLines(h, FRESH, lines)
      invariant forall n | 0 < n <= |calls| :: accepts(calls[..n])
      decreases |rest|
    {
      var raw;
      ghost var before := rest;
      raw, rest := ScanLine(rest);
      assert lines + RawLines(before) == (lines + [raw]) + RawLines(rest);
      ReadSnoc(h, FRESH, lines, raw);
      lines := lines + [raw];
      if |raw| >= MAX_LINE {
        FailedStays(h, ReadLines(h, FRESH, lines), RawLines(rest));
        ReadAppend(h, FRESH, lines, RawLines(rest));
        ExtendsItself(calls, accepts);
        return calls, TooLong;
      }
      var line := DropCR(DropCR(raw));
      if line == "" {
        if dataLines != [] {
          var call := Dispatch(eventName, Join(dataLines, "\n"));
          SnocPrefixes(calls, call, accepts);
          calls := calls + [call];
          if !accepts(calls) {
            PassExtends(h, data, lines, RawLines(rest));
            return calls, Refused;
          }
        }
        eventName, dataLines := "", [];
      } else if ":" <= line {
      } else if "event:" <= line {
        eventName := h.trim(line[6..]);
      } else if "data:" <= line {
        dataLines := dataLines + [h.trim(line[5..])];
      }
    }
    NoLines();
    assert lines + [] == lines;
    if dataLines != [] {
      var call := Dispatch(eventName, Join(dataLines, "\n"));
      SnocPrefixes(calls, call, accepts);
      calls := calls + [call];
      if !accepts(calls) {
        return calls, Refused;
      }
    }
    ExtendsItself(calls, accepts);
    ending := Done;
  }

  lemma ExtendsItself(calls: seq<Dispatch>, accepts: seq<Dispatch> -> bool)
    requires forall n | 0 < n <= |calls| :: accepts(calls[..n])
    ensures calls != [] ==> accepts(calls)
  {
    assert calls[..|calls|] == calls;
  }

  lemma SnocPrefixes(calls: seq<Dispatch>, call: Dispatch, accepts: seq<Dispatch> -> bool)
    requires forall n | 0 < n <= |calls| :: accepts(calls[..n])
    ensures forall n | 0 < n < |calls + [call]| :: accepts((calls + [call])[..n])
    ensures accepts(calls + [call]) ==> forall n | 0 < n <= |calls + [call]| :: accepts((calls + [call])[..n])
  {
    var all := calls + [call];
    assert forall n | 0 < n <= |calls| :: all[..n] == calls[..n];
    assert all[..|all|] == all;
  }

  /** What has been called after some lines stays called. */
  lemma PassExtends(h: Host, data: string, lines: seq<string>, rest: seq<string>)
    requires RawLines(data) == lines + rest
    ensures ReadLines(h, FRESH, lines).calls <= Pass(h, data).calls
  {
    hide ReadLines, RawLines, Join;
    ReadAppend(h, FRESH, lines, rest);
    CallsShift(h, ReadLines(h, FRESH, lines), rest);
  }

  lemma ReadNone(h: Host, r: Reader)
    ensures ReadLines(h, r, []) == r
  {
  }

  lemma NoLines()
    ensures RawLines("") == []
  {
  }

  lemma {:induction false} FailedStays(h: Host, r: Reader, lines: seq<string>)
    requires r.failed
    ensures ReadLines(h, r, lines) == r
  {
    if lines != [] {
      FailedStays(h, r, lines[..|lines| - 1]);
    }
  }

  lemma {:induction false} ReadAppend(h: Host, r: Reader, a: seq<string>, b: seq<string>)
    ensures ReadLines(h, r, a + b) == ReadLines(h, ReadLines(h, r, a), b)
  {
    hide ReadLine, ReadLines;
    if b == [] {
      assert a + b == a;
      ReadNone(h, ReadLines(h, r, a));
    } else {
      var front, last := b[..|b| - 1], b[|b| - 1];
      ReadAppend(h, r, a, front);
      assert a + b == (a + front) + [last] && b == front + [last];
      ReadSnoc(h, r, a + front, last);
      ReadSnoc(h, ReadLines(h, r, a), front, last);
    }
  }

  /** Earlier calls do not influence later ones. */
  lemma {:induction false} CallsShift(h: Host, r: Reader, lines: seq<string>)
    ensures ReadLines(h, r, lines)
         == var s := ReadLines(h, r.(calls := []), lines); s.(calls := r.calls + s.calls)
  {
    hide ReadLine;
    if lines != [] {
      var front := lines[..|lines| - 1];
      CallsShift(h, r, front);
      LineShift(h, ReadLines(h, r.(calls := []), front), r.calls, lines[|lines| - 1]);
    }
  }

  lemma LineShift(h: Host, s: Reader, earlier: seq<Dispatch>, raw: string)
    ensures ReadLine(h, s.(calls := earlier + s.calls), raw)
         == var t := ReadLine(h, s, raw); t.(calls := earlier + t.calls)
  {
  }

  /** At the end of a complete frame the reader holds nothing back. */
  lemma FrameLeavesFresh(h: Host, frame: string)
    requires IsFrame(frame)
    ensures var r := ReadLines(h, FRESH, RawLines(frame));
            Pass(h, frame) == r && (!r.failed ==> r == FRESH.(calls := r.calls))
  {
    FrameEndsBlank(frame);
    var lines := RawLines(frame);
    var n := |lines| - 1;
    var r := ReadLines(h, FRESH, lines[..n]);
    assert DropCR(DropCR(lines[n])) == "";
  }

  /** Reading a frame and then the rest is reading them in one pass, unless the frame itself
  broke off. */
  lemma PassAppend(h: Host, frame: string, rest: string)
    requires IsFrame(frame)
    ensures var first, second := Pass(h, frame), Pass(h, rest);
            && Pass(h, frame + rest).calls == first.calls + (if first.failed then [] else second.calls)
            && Pass(h, frame + rest).failed == (first.failed || second.failed)
  {
    hide RawLines, ReadLines, IsFrame;
    FrameEndsBlank(frame);
    FrameLeavesFresh(h, frame);
    LinesAppend(frame, rest);
    ReadAppend(h, FRESH, RawLines(frame), RawLines(rest));
    var first := ReadLines(h, FRESH, RawLines(frame));
    if first.failed {
      FailedStays(h, first, RawLines(rest));
    } else {
      CallsShift(h, first, RawLines(rest));
    }
  }

  // ---- Frame by frame against one pass -----------------------------------------------------

  /** Calls made when every piece is read by a pass of its own. */
  function PieceCalls(h: Host, pieces: seq<string>): seq<Dispatch> {
    if pieces == [] then [] else Pass(h, pieces[0]).calls + PieceCalls(h, pieces[1..])
  }

  /** Calls of the pieces that follow the first one to break off. */
  function CallsAfterFailure(h: Host, pieces: seq<string>): seq<Dispatch> {
    if pieces == [] then []
    else if Pass(h, pieces[0]).failed then PieceCalls(h, pieces[1..])
    else CallsAfterFailure(h, pieces[1..])
  }

  /** The first piece is the first frame, if there is one, and otherwise the whole. */
  lemma PiecesStep(data: string)
    ensures NextBoundary(data).0 < 0 ==> Pieces(data) == if data == "" then [] else [data]
    ensures NextBoundary(data).0 >= 0 ==>
              var (i, width) := NextBoundary(data);
              && 0 < i + width <= |data| && IsFrame(data[..i + width])
              && Pieces(data) == [data[..i + width]] + Pieces(data[i + width..])
  {
    hide Index, NextBoundary;
    BoundaryIsLeftmost(data);
    var (i, width) := NextBoundary(data);
    if i >= 0 {
      assert DelimiterAt(data[..i + width], i, width);
    }
  }

  /** Framed reading makes the calls of the single pass, then those the single pass lost to an
  over-long line. */
  lemma {:induction false} FramedVersusSingle(h: Host, data: string)
    ensures PieceCalls(h, Pieces(data)) == Pass(h, data).calls + CallsAfterFailure(h, Pieces(data))
    decreases |data|
  {
    hide NextBoundary, Pass, Pieces, PieceCalls, CallsAfterFailure;
    var (i, width) := NextBoundary(data);
    PiecesStep(data);
    if i < 0 {
      if data == "" {
        EmptyPass(h);
        NoPieces(h);
      } else {
        NoPieces(h);
        FirstPiece(h, data, []);
      }
    } else {
      var frame, rest := data[..i + width], data[i + width..];
      assert data == frame + rest;
      FramedVersusSingle(h, rest);
      PassAppend(h, frame, rest);
      FirstPiece(h, frame, Pieces(rest));
    }
  }

  lemma EmptyPass(h: Host)
    ensures Pass(h, "") == FRESH
  {
  }

  lemma NoPieces(h: Host)
    ensures PieceCalls(h, []) == [] && CallsAfterFailure(h, []) == []
  {
  }

  lemma FirstPiece(h: Host, piece: string, more: seq<string>)
    ensures PieceCalls(h, [piece] + more) == Pass(h, piece).calls + PieceCalls(h, more)
    ensures CallsAfterFailure(h, [piece] + more)
         == if Pass(h, piece).failed then PieceCalls(h, more) else CallsAfterFailure(h, more)
    ensures more == [] ==> [piece] + more == [piece]
  {
    hide Pass;
    assert ([piece] + more)[1..] == more;
  }

  predicate AllFit(lines: seq<string>) {
    forall line | line in lines :: |line| < 16_777_216
  }

  predicate LinesFit(data: string) {
    AllFit(RawLines(data))
  }

  // ---- What is dispatched, read off the bytes ----------------------------------------------

  predicate IsData(raw: string) {
    "data:" <= DropCR(DropCR(raw))
  }

  predicate IsBlank(raw: string) {
    DropCR(DropCR(raw)) == ""
  }

  predicate HasData(lines: seq<string>) {
    exists i | 0 <= i < |lines| :: IsData(lines[i])
  }

  /** Some data line is followed by a blank line, with no over-long line up to there. */
  predicate Closed(lines: seq<string>) {
    exists j | 0 <= j < |lines| :: IsBlank(lines[j]) && AllFit(lines[..j + 1]) && HasData(lines[..j])
  }

  /** A pass over these lines calls the handler: for a data line and a blank line after it, or at
  the end of lines that all fit. */
  predicate Dispatches(lines: seq<string>) {
    Closed(lines) || (AllFit(lines) && HasData(lines))
  }

  lemma LinesSnoc(lines: seq<string>, raw: string)
    ensures AllFit(lines + [raw]) <==> AllFit(lines) && |raw| < MAX_LINE
    ensures HasData(lines + [raw]) <==> HasData(lines) || IsData(raw)
    ensures Closed(lines + [raw]) <==> Closed(lines) || (IsBlank(raw) && AllFit(lines + [raw]) && HasData(lines))
    ensures Closed(lines) ==> HasData(lines)
  {
    hide IsBlank, IsData;
    var all := lines + [raw];
    assert forall i | 0 <= i < |lines| :: all[i] == lines[i];
    assert all[|lines|] == raw && all[..|lines|] == lines && all[..|all|] == all;
    assert HasData(all) <== HasData(lines) by {
      if i :| 0 <= i < |lines| && IsData(lines[i]) {
        assert IsData(all[i]);
      }
    }
    assert forall j | 0 <= j <= |lines| :: all[..j] == lines[..j];
    if j :| 0 <= j < |lines| && IsBlank(lines[j]) && AllFit(lines[..j + 1]) && HasData(lines[..j]) {
      assert IsBlank(all[j]) && AllFit(all[..j + 1]) && HasData(all[..j]);
      var i :| 0 <= i < j && IsData(lines[..j][i]);
      assert IsData(lines[i]);
    }
    if IsBlank(raw) && AllFit(all) && HasData(lines) {
      assert IsBlank(all[|lines|]) && AllFit(all[..|lines| + 1]) && HasData(all[..|lines|]);
    }
  }

  /** What the reader has called and holds back, read off the lines. */
  lemma {:induction false} ReaderShows(h: Host, lines: seq<string>)
    ensures var r := ReadLines(h, FRESH, lines);
            && (r.failed <==> !AllFit(lines))
            && (r.calls != [] <==> Closed(lines))
            && (!r.failed ==> (HasData(lines) <==> r.calls != [] || r.dataLines != []))
  {
    hide AllFit, HasData, Closed;
    if lines == [] {
      NothingShown();
    } else {
      var front, raw := lines[..|lines| - 1], lines[|lines| - 1];
      assert lines == front + [raw];
      ReaderShows(h, front);
      LinesSnoc(front, raw);
    }
  }

  lemma NothingShown()
    ensures AllFit([]) && !Closed([]) && !HasData([])
  {
  }

  /** A pass breaks off exactly on input with an over-long line. */
  lemma PassFailsIff(h: Host, data: string)
    ensures Pass(h, data).failed <==> !LinesFit(data)
  {
    hide RawLines, ReadLines;
    ReaderShows(h, RawLines(data));
  }

  /** Whether a pass calls its handler depends on the bytes alone. */
  lemma PassDispatchesIff(h: Host, data: string)
    ensures Pass(h, data).calls != [] <==> Dispatches(RawLines(data))
  {
    hide RawLines, ReadLines, AllFit, HasData, Closed;
    var lines := RawLines(data);
    ReaderShows(h, lines);
    if lines != [] {
      LinesSnoc(lines[..|lines| - 1], lines[|lines| - 1]);
      assert lines == lines[..|lines| - 1] + [lines[|lines| - 1]];
    } else {
      NothingShown();
    }
  }

  /** Some piece after one with an over-long line has something to dispatch. */
  ghost predicate LostCalls(pieces: seq<string>) {
    exists p, q | 0 <= p < q < |pieces| :: !LinesFit(pieces[p]) && Dispatches(RawLines(pieces[q]))
  }

  ghost predicate AnyDispatches(pieces: seq<string>) {
    exists q | 0 <= q < |pieces| :: Dispatches(RawLines(pieces[q]))
  }

  lemma {:induction false} PiecesDispatch(h: Host, pieces: seq<string>)
    ensures PieceCalls(h, pieces) != [] <==> AnyDispatches(pieces)
  {
    hide Pass, RawLines, Dispatches;
    if pieces != [] {
      var first, more := pieces[0], pieces[1..];
      PiecesDispatch(h, more);
      PassDispatchesIff(h, first);
      assert pieces == [first] + more;
      assert forall q | 0 <= q < |more| :: pieces[q + 1] == more[q];
    }
  }

  lemma {:induction false} LostIff(h: Host, pieces: seq<string>)
    ensures CallsAfterFailure(h, pieces) != [] <==> LostCalls(pieces)
  {
    hide Pass, RawLines, Dispatches, LinesFit, PieceCalls;
    if pieces != [] {
      var first, more := pieces[0], pieces[1..];
      LostIff(h, more);
      PiecesDispatch(h, more);
      PassFailsIff(h, first);
      assert forall q | 0 <= q < |more| :: pieces[q + 1] == more[q];
      assert forall q | 1 <= q < |pieces| :: pieces[q] == more[q - 1];
    }
  }

  /** Framed and single-pass reading agree exactly when no piece after the first one with an
  over-long line dispatches anything. */
  lemma FramedIsSingleIff(h: Host, data: string)
    ensures PieceCalls(h, Pieces(data)) == Pass(h, data).calls <==> !LostCalls(Pieces(data))
  {
    FramedVersusSingle(h, data);
    LostIff(h, Pieces(data));
  }

  /** With every line under the scanner's limit the two readings are the same. */
  lemma {:induction false} FramedIsSingle(h: Host, data: string)
    requires LinesFit(data)
    ensures PieceCalls(h, Pieces(data)) == Pass(h, data).calls
    decreases |data|
  {
    PassFailsIff(h, data);
    FramedVersusSingle(h, data);
    NoFailureNoLoss(h, data);
  }

  lemma {:induction false} NoFailureNoLoss(h: Host, data: string)
    requires !Pass(h, data).failed
    ensures CallsAfterFailure(h, Pieces(data)) == []
    decreases |data|
  {
    hide NextBoundary, Pass, Pieces, PieceCalls, CallsAfterFailure;
    var (i, width) := NextBoundary(data);
    PiecesStep(data);
    NoPieces(h);
    if i < 0 {
      FirstPiece(h, data, []);
    } else {
      var frame, rest := data[..i + width], data[i + width..];
      assert data == frame + rest;
      PassAppend(h, frame, rest);
      FirstPiece(h, frame, Pieces(rest));
      NoFailureNoLoss(h, rest);
    }
  }

  /** The limit is a real condition: after an over-long line in one frame, only framed reading
  sees the next frame. */
  lemma LongLineExample(h: Host)
    ensures var data := seq(MAX_LINE, _ => 'x') + "\n\n" + "data: 1\n\n";
            |PieceCalls(h, Pieces(data))| == 1 && |Pass(h, data).calls| == 0
  {
    hide Index, NextBoundary, CutFrames, Pass, RawLines;
    var long := seq(MAX_LINE, _ => 'x');
    var head, tail := long + "\n\n", "data: 1\n\n";
    TwoLineFrame(h, long);
    TwoLineFrame(h, "data: 1");
    assert "data: 1" + "\n\n" == tail;
    PassAppend(h, head, tail);
    assert |Pass(h, tail).calls| == 1;
    ExampleCut(long, head, tail);
    assert [head, tail][1..] == [tail] && [tail][1..] == [];
    assert PieceCalls(h, [tail]) == Pass(h, tail).calls + PieceCalls(h, []);
  }

  lemma TwoLineFrame(h: Host, line: string)
    requires '\n' !in line
    ensures IsFrame(line + "\n\n")
    ensures Pass(h, line + "\n\n") == ReadLine(h, ReadLine(h, FRESH, line), "")
  {
    hide Index, RawLines, ReadLines;
    var frame := line + "\n\n";
    assert DelimiterAt(frame, |line|, 2);
    OneLine(line);
    OneLine("");
    LinesAppend(line + "\n", "\n");
    assert frame == (line + "\n") + "\n" && "" + "\n" == "\n";
    assert RawLines(frame) == [] + [line] + [""];
    ReadNone(h, FRESH);
    ReadSnoc(h, FRESH, [], line);
    ReadSnoc(h, FRESH, [] + [line], "");
  }

  lemma ExampleCut(long: string, head: string, tail: string)
    requires '\n' !in long && head == long + "\n\n" && tail == "data: 1\n\n"
    ensures Pieces(head + tail) == [head, tail]
  {
    hide Index, NextBoundary;
    var all := head + tail;
    BoundaryIsLeftmost(all);
    assert DelimiterAt(all, |long|, 2);
    assert forall j | 0 <= j < |long| :: all[j] == long[j] && all[j] != '\n';
    assert forall j, w | 0 <= j < |long| :: !DelimiterAt(all, j, w) by {
      assert all[|long|] == '\n';
    }
    assert NextBoundary(all) == (|long|, 2);
    assert all[..|long| + 2] == head && all[|long| + 2..] == tail;
    BoundaryIsLeftmost(tail);
    assert DelimiterAt(tail, 7, 2);
    assert NextBoundary(tail) == (7, 2);
    assert tail[..9] == tail && tail[9..] == "";
    BoundaryIsLeftmost("");
    assert CutFrames("") == Cut([], "");
    assert CutFrames(tail) == Cut([tail] + [], "");
    assert CutFrames(all) == Cut([head] + CutFrames(tail).frames, "");
  }
}
