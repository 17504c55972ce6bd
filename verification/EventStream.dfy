/** A grammar of event streams, and what the reader calls its handler with on each of them.

Every sequence of bytes is a text of this grammar, so the readings below leave no input out. */
module EventStream {
  import opened Common
  import opened Json
  import opened Sse

  datatype Line = Data(payload: string) | Named(name: string) | Comment(text: string) | Unknown(text: string)

  /** A line and the number of CRs before its line feed. */
  datatype Written = Written(line: Line, crs: nat)

  /** Lines up to and including a blank one. */
  datatype Block = Block(lines: seq<Written>, crs: nat)

  /** How the input ends after its last blank line: with whole lines, inside a line, inside a blank
  line (CRs only), or with an over-long line, whatever comes after that. */
  datatype Tail =
    | Finished(open: seq<Written>)
    | Inside(open: seq<Written>, last: Written)
    | InsideBlank(open: seq<Written>, crs: nat)
    | Broken(open: seq<Written>, raw: string, more: string)

  datatype Stream = Stream(blocks: seq<Block>, tail: Tail)

  function CRs(n: nat): string {
    if n == 0 then "" else if n == 1 then "\r" else "\r\r"
  }

  function Text(line: Line): string {
    match line
    case Data(payload) => "data:" + payload
    case Named(name) => "event:" + name
    case Comment(text) => ":" + text
    case Unknown(text) => text
  }

  function Raw(w: Written): string {
    Text(w.line) + CRs(w.crs)
  }

  function TextOf(lines: seq<Written>): string {
    if lines == [] then "" else TextOf(lines[..|lines| - 1]) + (Raw(lines[|lines| - 1]) + "\n")
  }

  function BlockText(b: Block): string {
    TextOf(b.lines) + (CRs(b.crs) + "\n")
  }

  function TailText(t: Tail): string {
    match t
    case Finished(open) => TextOf(open)
    case Inside(open, last) => TextOf(open) + Raw(last)
    case InsideBlank(open, crs) => TextOf(open) + CRs(crs)
    case Broken(open, raw, more) => TextOf(open) + (raw + more)
  }

  function StreamText(blocks: seq<Block>, tail: Tail): string {
    if blocks == [] then TailText(tail) else BlockText(blocks[0]) + StreamText(blocks[1..], tail)
  }

  // ---- Well-formedness ---------------------------------------------------------------------

  predicate EndsInCR(s: string) {
    s != "" && s[|s| - 1] == '\r'
  }

  /** Up to two CRs belong to the line feed; unknown lines are neither blank nor of another kind. */
  predicate LineOk(w: Written) {
    && '\n' !in Text(w.line) && w.crs <= 2 && (w.crs < 2 ==> !EndsInCR(Text(w.line)))
    && |Raw(w)| < MAX_LINE
    && (w.line.Unknown? ==>
          var t := w.line.text; t != "" && !("data:" <= t) && !("event:" <= t) && !(":" <= t))
  }

  predicate LinesOk(lines: seq<Written>) {
    forall i | 0 <= i < |lines| :: LineOk(lines[i])
  }

  predicate TailOk(t: Tail) {
    && LinesOk(t.open)
    && match t
       case Finished(_) => true
       case Inside(_, last) => LineOk(last)
       case InsideBlank(_, crs) => 1 <= crs <= 2
       case Broken(_, raw, more) => |raw| >= MAX_LINE && '\n' !in raw && (more != "" ==> more[0] == '\n')
  }

  predicate StreamOk(blocks: seq<Block>, tail: Tail) {
    TailOk(tail) && forall i | 0 <= i < |blocks| :: LinesOk(blocks[i].lines) && blocks[i].crs <= 2
  }

  // ---- What is said ------------------------------------------------------------------------

  /** The payloads of the data lines, trimmed, in order. */
  function Payloads(h: Host, lines: seq<Written>): seq<string> {
    if lines == [] then []
    else
      var front, last := Payloads(h, lines[..|lines| - 1]), lines[|lines| - 1].line;
      if last.Data? then front + [h.trim(last.payload)] else front
  }

  /** The name of the last event line, trimmed, or nothing. */
  function NameOf(h: Host, lines: seq<Written>): string {
    if lines == [] then ""
    else
      var last := lines[|lines| - 1].line;
      if last.Named? then h.trim(last.name) else NameOf(h, lines[..|lines| - 1])
  }

  function BlockCalls(h: Host, lines: seq<Written>): seq<Dispatch> {
    if Payloads(h, lines) == [] then [] else [Dispatch(NameOf(h, lines), Join(Payloads(h, lines), "\n"))]
  }

  /** A block the input leaves open is dispatched too, but not in front of an over-long line. */
  function TailCalls(h: Host, t: Tail): seq<Dispatch> {
    match t
    case Finished(open) => BlockCalls(h, open)
    case Inside(open, last) => BlockCalls(h, open + [last])
    case InsideBlank(open, _) => BlockCalls(h, open)
    case Broken(_, _, _) => []
  }

  function StreamCalls(h: Host, blocks: seq<Block>, tail: Tail): seq<Dispatch> {
    if blocks == [] then TailCalls(h, tail)
    else BlockCalls(h, blocks[0].lines) + StreamCalls(h, blocks[1..], tail)
  }

  /** Joining puts the parts on lines of their own: reading the lines back gives the parts. */
  lemma {:induction false} JoinedLines(parts: seq<string>)
    requires parts != [] && forall p | p in parts :: '\n' !in p
    ensures RawLines(Join(parts, "\n") + "\n") == parts
  {
    hide RawLines;
    OneLine(parts[0]);
    if |parts| > 1 {
      JoinedLines(parts[1..]);
      LinesAppend(parts[0] + "\n", Join(parts[1..], "\n") + "\n");
      assert Join(parts, "\n") + "\n" == (parts[0] + "\n") + (Join(parts[1..], "\n") + "\n");
    }
  }

  // ---- The reader on one block -------------------------------------------------------------

  function Raws(lines: seq<Written>): seq<string> {
    if lines == [] then [] else Raws(lines[..|lines| - 1]) + [Raw(lines[|lines| - 1])]
  }

  lemma LinesOkParts(lines: seq<Written>)
    requires LinesOk(lines) && lines != []
    ensures LinesOk(lines[..|lines| - 1]) && LineOk(lines[|lines| - 1])
  {
  }

  lemma {:induction false} LinesOf(lines: seq<Written>)
    requires LinesOk(lines)
    ensures RawLines(TextOf(lines)) == Raws(lines)
    ensures TextOf(lines) == "" || TextOf(lines)[|TextOf(lines)| - 1] == '\n'
  {
    hide RawLines, LineOk, Raw;
    if lines == [] {
      NoLines();
    } else {
      var front, last := lines[..|lines| - 1], lines[|lines| - 1];
      LinesOkParts(lines);
      LinesOf(front);
      RawIsOneLine(last);
      OneLine(Raw(last));
      LinesAppend(TextOf(front), Raw(last) + "\n");
    }
  }

  lemma RawIsOneLine(w: Written)
    requires LineOk(w)
    ensures '\n' !in Raw(w) && Raw(w) != "" && |Raw(w)| < MAX_LINE
    ensures DropCR(DropCR(Raw(w))) == Text(w.line) != ""
  {
    DropsBoth(Text(w.line), w.crs);
  }

  lemma DropsBoth(text: string, crs: nat)
    requires crs <= 2 && (crs < 2 ==> !EndsInCR(text))
    ensures DropCR(DropCR(text + CRs(crs))) == text
    ensures '\n' in text + CRs(crs) ==> '\n' in text
  {
    if crs == 0 {
      assert text + "" == text;
    } else if crs == 1 {
      assert (text + "\r")[..|text|] == text;
    } else {
      assert (text + "\r\r")[..|text| + 1] == text + "\r";
      assert (text + "\r")[..|text|] == text;
    }
  }

  /** One line of each kind, to the reader. */
  lemma ReadsLine(h: Host, r: Reader, w: Written)
    requires LineOk(w) && !r.failed
    ensures ReadLine(h, r, Raw(w))
         == match w.line
            case Data(payload) => r.(dataLines := r.dataLines + [h.trim(payload)])
            case Named(name) => r.(eventName := h.trim(name))
            case _ => r
  {
    hide Raw;
    RawIsOneLine(w);
    match w.line
    case Data(payload) =>
      assert Text(w.line)[..5] == "data:" && Text(w.line)[5..] == payload && Text(w.line)[0] == 'd';
    case Named(name) =>
      assert Text(w.line)[..6] == "event:" && Text(w.line)[6..] == name && Text(w.line)[0] == 'e';
    case _ =>
  }

  lemma {:induction false} ReadsLines(h: Host, lines: seq<Written>)
    requires LinesOk(lines)
    ensures ReadLines(h, FRESH, Raws(lines)) == Reader(NameOf(h, lines), Payloads(h, lines), [], false)
  {
    hide ReadLine, LineOk, Raw;
    if lines != [] {
      var front, last := lines[..|lines| - 1], lines[|lines| - 1];
      LinesOkParts(lines);
      ReadsLines(h, front);
      ReadSnoc(h, FRESH, Raws(front), Raw(last));
      ReadsLine(h, Reader(NameOf(h, front), Payloads(h, front), [], false), last);
    }
  }

  lemma BlankReads(h: Host, r: Reader, crs: nat)
    requires crs <= 2 && !r.failed
    ensures '\n' !in CRs(crs) && ReadLine(h, r, CRs(crs)) == Flush(r)
  {
    DropsBoth("", crs);
    assert "" + CRs(crs) == CRs(crs);
  }

  /** A block makes its call and leaves the reader fresh, whatever comes after it. */
  lemma BlockThenRest(h: Host, b: Block, rest: string)
    requires LinesOk(b.lines) && b.crs <= 2
    ensures Pass(h, BlockText(b) + rest).calls == BlockCalls(h, b.lines) + Pass(h, rest).calls
    ensures Pass(h, BlockText(b) + rest).failed == Pass(h, rest).failed
  {
    hide RawLines, ReadLines, ReadLine, LinesOk, Join;
    var blank := CRs(b.crs);
    var r := Reader(NameOf(h, b.lines), Payloads(h, b.lines), [], false);
    BlankReads(h, r, b.crs);
    LinesOf(b.lines);
    OneLine(blank);
    LinesAppend(TextOf(b.lines), blank + "\n");
    var lines := Raws(b.lines) + [blank];
    assert BlockText(b)[|BlockText(b)| - 1] == '\n';
    LinesAppend(BlockText(b), rest);
    ReadsLines(h, b.lines);
    ReadSnoc(h, FRESH, Raws(b.lines), blank);
    ReadAppend(h, FRESH, lines, RawLines(rest));
    CallsShift(h, Flush(r), RawLines(rest));
  }

  lemma TailReads(h: Host, t: Tail)
    requires TailOk(t)
    ensures Pass(h, TailText(t)).calls == TailCalls(h, t)
    ensures Pass(h, TailText(t)).failed == t.Broken?
  {
    hide RawLines, ReadLines, ReadLine, LineOk, LinesOk, Join, Raw;
    LinesOf(t.open);
    ReadsLines(h, t.open);
    var r := Reader(NameOf(h, t.open), Payloads(h, t.open), [], false);
    match t
    case Finished(open) =>
    case Inside(open, last) =>
      InsideReads(h, open, last);
    case InsideBlank(open, crs) =>
      BlankReads(h, r, crs);
      LoneLine(CRs(crs));
      LinesAppend(TextOf(open), CRs(crs));
      ReadSnoc(h, FRESH, Raws(open), CRs(crs));
    case Broken(open, raw, more) =>
      BrokenLines(raw, more);
      LinesAppend(TextOf(open), raw + more);
      BrokenReads(h, Raws(open), RawLines(raw + more), r);
  }

  lemma InsideReads(h: Host, open: seq<Written>, last: Written)
    requires LinesOk(open) && LineOk(last)
    ensures Pass(h, TextOf(open) + Raw(last)).calls == BlockCalls(h, open + [last])
    ensures !Pass(h, TextOf(open) + Raw(last)).failed
  {
    hide RawLines, ReadLines, ReadLine, LineOk, LinesOk, Join, Raw;
    LinesOf(open);
    RawIsOneLine(last);
    LoneLine(Raw(last));
    LinesAppend(TextOf(open), Raw(last));
    OkSnoc(open, last);
    assert (open + [last])[..|open|] == open;
    assert Raws(open + [last]) == Raws(open) + [Raw(last)];
    ReadsLines(h, open + [last]);
  }

  lemma OkSnoc(lines: seq<Written>, last: Written)
    requires LinesOk(lines) && LineOk(last)
    ensures LinesOk(lines + [last])
  {
    hide LineOk;
  }

  lemma LoneLine(raw: string)
    requires raw != "" && '\n' !in raw
    ensures RawLines(raw) == [raw]
  {
    LineFeeds(raw);
  }

  lemma BrokenLines(raw: string, more: string)
    requires raw != "" && '\n' !in raw && (more != "" ==> more[0] == '\n')
    ensures RawLines(raw + more) != [] && RawLines(raw + more)[0] == raw
  {
    hide RawLines;
    if more == "" {
      LoneLine(raw);
      assert raw + "" == raw;
    } else {
      OneLine(raw);
      LinesAppend(raw + "\n", more[1..]);
      assert raw + more == (raw + "\n") + more[1..];
    }
  }

  lemma BrokenReads(h: Host, lines: seq<string>, rest: seq<string>, r: Reader)
    requires rest != [] && |rest[0]| >= MAX_LINE
    requires ReadLines(h, FRESH, lines) == r && !r.failed
    ensures ReadLines(h, FRESH, lines + rest) == r.(failed := true)
  {
    hide ReadLines;
    assert lines + rest == (lines + [rest[0]]) + rest[1..];
    ReadSnoc(h, FRESH, lines, rest[0]);
    ReadAppend(h, FRESH, lines + [rest[0]], rest[1..]);
    FailedStays(h, ReadLines(h, FRESH, lines + [rest[0]]), rest[1..]);
  }

  // ---- Whole streams -----------------------------------------------------------------------

  /** One pass over a stream calls the handler once for every block with data lines, with the
  block's last event name and its payloads joined by line feeds, all trimmed, and with nothing
  else; it fails exactly on an over-long line. */
  lemma {:induction false} StreamReads(h: Host, blocks: seq<Block>, tail: Tail)
    requires StreamOk(blocks, tail)
    ensures Pass(h, StreamText(blocks, tail)).calls == StreamCalls(h, blocks, tail)
    ensures Pass(h, StreamText(blocks, tail)).failed == tail.Broken?
  {
    hide Pass, BlockCalls, BlockText, TailText, TailCalls, TailOk, LinesOk;
    if blocks == [] {
      TailReads(h, tail);
    } else {
      StreamReads(h, blocks[1..], tail);
      BlockThenRest(h, blocks[0], StreamText(blocks[1..], tail));
    }
  }

  /** The plainest stream: one data line. */
  lemma OneDataLine(h: Host, payload: string)
    requires '\n' !in payload && !EndsInCR(payload) && |payload| + 5 < MAX_LINE
    ensures Pass(h, "data:" + payload + "\n\n").calls == [Dispatch("", h.trim(payload))]
    ensures LinesFit("data:" + payload + "\n\n")
  {
    hide Pass, LinesFit;
    PassFailsIff(h, "data:" + payload + "\n\n");
    var w := Written(Data(payload), 0);
    assert LineOk(w);
    var b := Block([w], 0);
    assert [w][..0] == [];
    assert TextOf([w]) == "" + (Raw(w) + "\n");
    assert BlockText(b) + "" == "data:" + payload + "\n\n";
    BlockThenRest(h, b, "");
    EmptyPass(h);
    assert Payloads(h, [w]) == [] + [h.trim(payload)] == [h.trim(payload)];
    assert NameOf(h, [w]) == NameOf(h, []) == "";
  }

  // ---- Every input is a stream -------------------------------------------------------------

  lemma SplitCRs(raw: string) returns (text: string, crs: nat)
    ensures raw == text + CRs(crs) && crs <= 2 && (crs < 2 ==> !EndsInCR(text))
  {
    if !EndsInCR(raw) {
      assert raw + "" == raw;
      return raw, 0;
    }
    var front := raw[..|raw| - 1];
    assert raw == front + "\r";
    if !EndsInCR(front) {
      return front, 1;
    }
    text, crs := front[..|front| - 1], 2;
    assert front == text + "\r" && raw == text + "\r\r";
  }

  function LineFor(text: string): Line {
    if "data:" <= text then Data(text[5..])
    else if "event:" <= text then Named(text[6..])
    else if ":" <= text then Comment(text[1..])
    else Unknown(text)
  }

  lemma LineForIs(text: string)
    ensures Text(LineFor(text)) == text
  {
    PrefixAndRest("data:", text);
    PrefixAndRest("event:", text);
    PrefixAndRest(":", text);
  }

  lemma PrefixAndRest(prefix: string, text: string)
    ensures prefix <= text ==> prefix + text[|prefix|..] == text
  {
  }

  lemma FormOf(raw: string) returns (blank: bool, w: Written)
    requires '\n' !in raw && |raw| < MAX_LINE
    ensures blank ==> w.crs <= 2 && raw == CRs(w.crs)
    ensures !blank ==> LineOk(w) && raw == Raw(w)
  {
    hide CRs, EndsInCR, Text;
    var text, crs := SplitCRs(raw);
    LineForIs(text);
    blank := text == "";
    w := Written(LineFor(text), crs);
    if blank {
      assert "" + CRs(crs) == CRs(crs);
    }
  }

  lemma {:induction false} TextFront(w: Written, lines: seq<Written>)
    ensures TextOf([w] + lines) == (Raw(w) + "\n") + TextOf(lines)
  {
    hide Raw;
    var all := [w] + lines;
    if lines == [] {
      assert all[..0] == [] && all == [w];
      assert "" + (Raw(w) + "\n") == (Raw(w) + "\n") + "";
    } else {
      TextFront(w, lines[..|lines| - 1]);
      assert all[..|all| - 1] == [w] + lines[..|lines| - 1];
    }
  }

  /** Whether the first line goes to the first block or to the tail. */
  function WithLine(w: Written, blocks: seq<Block>, tail: Tail): (seq<Block>, Tail) {
    if blocks != [] then ([blocks[0].(lines := [w] + blocks[0].lines)] + blocks[1..], tail)
    else ([], tail.(open := [w] + tail.open))
  }

  lemma FirstLine(w: Written, blocks: seq<Block>, tail: Tail)
    requires LineOk(w) && StreamOk(blocks, tail)
    ensures var (b, t) := WithLine(w, blocks, tail);
            StreamOk(b, t) && StreamText(b, t) == (Raw(w) + "\n") + StreamText(blocks, tail)
  {
    hide LineOk, Raw;
    if blocks != [] {
      FirstOfBlock(w, blocks, tail);
    } else {
      FirstOfTail(w, tail);
    }
  }

  lemma FirstOfBlock(w: Written, blocks: seq<Block>, tail: Tail)
    requires LineOk(w) && StreamOk(blocks, tail) && blocks != []
    ensures var b := WithLine(w, blocks, tail).0;
            StreamOk(b, tail) && StreamText(b, tail) == (Raw(w) + "\n") + StreamText(blocks, tail)
  {
    hide LineOk, Raw, TextOf, TailOk, TailText;
    var b := WithLine(w, blocks, tail).0;
    TextFront(w, blocks[0].lines);
    OkFront(w, blocks[0].lines);
    hide LinesOk;
    assert b[1..] == blocks[1..];
    assert BlockText(b[0]) == (Raw(w) + "\n") + BlockText(blocks[0]);
    assert StreamText(b, tail) == BlockText(b[0]) + StreamText(blocks[1..], tail);
  }

  lemma OkFront(w: Written, lines: seq<Written>)
    requires LineOk(w) && LinesOk(lines)
    ensures LinesOk([w] + lines)
  {
    hide LineOk;
  }

  lemma FirstOfTail(w: Written, tail: Tail)
    requires LineOk(w) && StreamOk([], tail)
    ensures var t := WithLine(w, [], tail).1;
            StreamOk([], t) && StreamText([], t) == (Raw(w) + "\n") + StreamText([], tail)
  {
    hide LineOk, Raw, TextOf;
    TextFront(w, tail.open);
    OkFront(w, tail.open);
    hide LinesOk;
    assert TailText(tail.(open := [w] + tail.open)) == (Raw(w) + "\n") + TailText(tail);
  }

  lemma FirstRaw(data: string) returns (raw: string)
    ensures raw <= data && '\n' !in raw && (|raw| < |data| ==> data[|raw|] == '\n')
  {
    var n := 0;
    while n < |data| && data[n] != '\n'
      invariant n <= |data| && '\n' !in data[..n]
    {
      assert data[..n + 1] == data[..n] + [data[n]];
      n := n + 1;
    }
    raw := data[..n];
  }

  /** Every input is the text of a stream, so `StreamReads` covers all of them. */
  lemma {:induction false} EveryInputIsAStream(data: string) returns (blocks: seq<Block>, tail: Tail)
    ensures StreamOk(blocks, tail) && StreamText(blocks, tail) == data
    decreases |data|
  {
    hide LineOk, Raw, StreamText, StreamOk;
    if data == "" {
      EmptyStream();
      return [], Finished([]);
    }
    var raw := FirstRaw(data);
    var more := data[|raw|..];
    assert data == raw + more;
    if |raw| >= MAX_LINE {
      LongFirst(raw, more);
      return [], Broken([], raw, more);
    }
    var blank, w := FormOf(raw);
    if more == "" {
      LastLine(blank, w);
      return [], if blank then InsideBlank([], w.crs) else Inside([], w);
    }
    blocks, tail := EveryInputIsAStream(more[1..]);
    assert data == (raw + "\n") + more[1..];
    blocks, tail := WithFirst(raw, blank, w, blocks, tail);
  }

  lemma WithFirst(raw: string, blank: bool, w: Written, blocks: seq<Block>, tail: Tail) returns (b: seq<Block>, t: Tail)
    requires if blank then w.crs <= 2 && raw == CRs(w.crs) else LineOk(w) && raw == Raw(w)
    requires StreamOk(blocks, tail)
    ensures StreamOk(b, t) && StreamText(b, t) == (raw + "\n") + StreamText(blocks, tail)
  {
    hide LineOk, Raw, CRs, StreamText, StreamOk;
    if blank {
      BlankFirst(w.crs, blocks, tail);
      return [Block([], w.crs)] + blocks, tail;
    }
    FirstLine(w, blocks, tail);
    var all := WithLine(w, blocks, tail);
    return all.0, all.1;
  }

  lemma EmptyStream()
    ensures StreamOk([], Finished([])) && StreamText([], Finished([])) == ""
  {
  }

  lemma LongFirst(raw: string, more: string)
    requires |raw| >= MAX_LINE && '\n' !in raw && (more != "" ==> more[0] == '\n')
    ensures StreamOk([], Broken([], raw, more)) && StreamText([], Broken([], raw, more)) == raw + more
  {
    assert "" + (raw + more) == raw + more;
  }

  lemma LastLine(blank: bool, w: Written)
    requires if blank then 1 <= w.crs <= 2 else LineOk(w)
    ensures blank ==> StreamOk([], InsideBlank([], w.crs)) && StreamText([], InsideBlank([], w.crs)) == CRs(w.crs)
    ensures !blank ==> StreamOk([], Inside([], w)) && StreamText([], Inside([], w)) == Raw(w)
  {
    hide LineOk, Raw;
    assert "" + CRs(w.crs) == CRs(w.crs) && "" + Raw(w) == Raw(w);
  }

  lemma BlankFirst(crs: nat, blocks: seq<Block>, tail: Tail)
    requires crs <= 2 && StreamOk(blocks, tail)
    ensures var all := [Block([], crs)] + blocks;
            StreamOk(all, tail) && StreamText(all, tail) == (CRs(crs) + "\n") + StreamText(blocks, tail)
  {
    hide TailOk, TailText, LinesOk;
    var all := [Block([], crs)] + blocks;
    assert all[1..] == blocks;
    assert LinesOk([]) by {
      NoneOk();
    }
    assert BlockText(all[0]) == CRs(crs) + "\n" by {
      assert "" + (CRs(crs) + "\n") == CRs(crs) + "\n";
    }
  }

  lemma NoneOk()
    ensures LinesOk([])
  {
  }
}
