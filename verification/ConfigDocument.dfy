/** A grammar of commented configuration texts, and the proof that the stripper blanks exactly the
comments of that grammar. String literals are those of RFC 8259, section 7, as far as finding
their end goes: a backslash takes the next byte with it. */
module ConfigDocument {
  import opened CommentStripper

  datatype Piece = Plain(c: char) | Quoted(body: string) | LineNote(body: string) | BlockNote(body: string)

  /** How a text ends: between pieces, inside a string, or inside a block comment. */
  datatype Tail = Closed | OpenQuote(body: string) | OpenBlock(body: string)

  datatype Document = Document(pieces: seq<Piece>, tail: Tail)

  function Source(p: Piece): string {
    match p
    case Plain(c) => [c]
    case Quoted(body) => "\"" + body + "\""
    case LineNote(body) => "//" + body
    case BlockNote(body) => "/*" + body + "*/"
  }

  function TailSource(t: Tail): string {
    match t
    case Closed => ""
    case OpenQuote(body) => "\"" + body
    case OpenBlock(body) => "/*" + body
  }

  function SourceOf(pieces: seq<Piece>, tail: Tail): string {
    if pieces == [] then TailSource(tail) else Source(pieces[0]) + SourceOf(pieces[1..], tail)
  }

  function HideAll(s: string): (t: string)
    ensures |t| == |s|
  {
    if s == "" then "" else [Hide(s[0])] + HideAll(s[1..])
  }

  /** The piece with its comment blanked, line breaks kept. */
  function Shown(p: Piece): string {
    match p
    case Plain(_) => Source(p)
    case Quoted(_) => Source(p)
    case LineNote(body) => "  " + HideAll(body)
    case BlockNote(body) => "  " + HideAll(body) + "  "
  }

  function ShownOf(pieces: seq<Piece>, tail: Tail): string {
    if pieces == [] then TailSource(tail) else Shown(pieces[0]) + ShownOf(pieces[1..], tail)
  }

  /** A comment is shown as spaces, its line breaks kept; everything else is shown as it is. */
  ghost predicate ShownAsBlank(p: Piece) {
    && |Shown(p)| == |Source(p)|
    && forall i | 0 <= i < |Source(p)| ::
         Shown(p)[i] == if (p.LineNote? || p.BlockNote?) && Source(p)[i] != '\n' && Source(p)[i] != '\r' then ' '
                        else Source(p)[i]
  }

  lemma {:induction false} HiddenIsBlank(s: string, i: nat)
    requires i < |s|
    ensures HideAll(s)[i] == if s[i] == '\n' || s[i] == '\r' then s[i] else ' '
  {
    if i > 0 {
      HiddenIsBlank(s[1..], i - 1);
    }
  }

  lemma PieceIsBlanked(p: Piece)
    ensures ShownAsBlank(p)
  {
    match p
    case LineNote(body) =>
      forall i | 0 <= i < |body| {
        HiddenIsBlank(body, i);
      }
    case BlockNote(body) =>
      forall i | 0 <= i < |body| {
        HiddenIsBlank(body, i);
      }
    case _ =>
  }

  /** Is the byte at `i` of the text part of a comment? */
  predicate InComment(pieces: seq<Piece>, tail: Tail, i: nat) {
    pieces != []
    && if i < |Source(pieces[0])| then pieces[0].LineNote? || pieces[0].BlockNote?
       else InComment(pieces[1..], tail, i - |Source(pieces[0])|)
  }

  /** Byte by byte: the shown text is the source with every comment byte that is not a line break
  replaced by a space. */
  lemma {:induction false} ShownByteByByte(pieces: seq<Piece>, tail: Tail)
    ensures |ShownOf(pieces, tail)| == |SourceOf(pieces, tail)|
    ensures forall i: nat | i < |SourceOf(pieces, tail)| ::
              var c := SourceOf(pieces, tail)[i];
              ShownOf(pieces, tail)[i] == if InComment(pieces, tail, i) && c != '\n' && c != '\r' then ' ' else c
  {
    hide Shown, Source, TailSource;
    if pieces != [] {
      var p, rest := pieces[0], pieces[1..];
      PieceIsBlanked(p);
      ShownByteByByte(rest, tail);
      forall i: nat | i < |SourceOf(pieces, tail)|
        ensures var c := SourceOf(pieces, tail)[i];
                ShownOf(pieces, tail)[i] == if InComment(pieces, tail, i) && c != '\n' && c != '\r' then ' ' else c
      {
        if i >= |Source(p)| {
          var j: nat := i - |Source(p)|;
          assert SourceOf(rest, tail)[j] == SourceOf(pieces, tail)[i];
          assert ShownOf(rest, tail)[j] == ShownOf(pieces, tail)[i];
        }
      }
    }
  }

  // ---- Well-formedness ---------------------------------------------------------------------

  /** Bytes and escape pairs, no bare quote. */
  predicate StringBody(s: string) {
    s == ""
    || (if s[0] == '\\' then |s| > 1 && StringBody(s[2..]) else s[0] != '"' && StringBody(s[1..]))
  }

  /** The same, possibly ending in a lone backslash. */
  predicate OpenBody(s: string) {
    s == ""
    || (if s[0] == '\\' then |s| == 1 || OpenBody(s[2..]) else s[0] != '"' && OpenBody(s[1..]))
  }

  predicate NoNewline(s: string) {
    forall i | 0 <= i < |s| :: !IsNewline(s[i])
  }

  predicate NoBlockEnd(s: string) {
    forall i | 0 <= i < |s| - 1 :: !(s[i] == '*' && s[i + 1] == '/')
  }

  predicate PieceOk(p: Piece, rest: string) {
    match p
    case Plain(c) => c != '"' && (c == '/' && rest != "" ==> rest[0] != '/' && rest[0] != '*')
    case Quoted(body) => StringBody(body)
    case LineNote(body) => NoNewline(body) && (rest != "" ==> IsNewline(rest[0]))
    case BlockNote(body) => NoBlockEnd(body + "*")
  }

  predicate WellFormed(pieces: seq<Piece>, tail: Tail) {
    if pieces == [] then
      match tail
      case Closed => true
      case OpenQuote(body) => OpenBody(body)
      case OpenBlock(body) => NoBlockEnd(body)
    else PieceOk(pieces[0], SourceOf(pieces[1..], tail)) && WellFormed(pieces[1..], tail)
  }

  // ---- The machine on one piece ------------------------------------------------------------

  /** Reading `text` in mode `m` shows `shown` and then reads `rest` in code mode; the mode at the
  end only matters as inside or outside a block comment. */
  ghost predicate Reads(m: Mode, text: string, shown: string, rest: string) {
    && Blank(m, text + rest) == shown + Blank(Code, rest)
    && (EndMode(m, text + rest) == BlockComment <==> EndMode(Code, rest) == BlockComment)
  }

  lemma ReadsStep(m: Mode, text: string, shown: string, rest: string)
    requires text != ""
    requires var v := Advance(m, text + rest);
             && v.width <= |text| && v.out <= shown
             && Reads(v.mode, text[v.width..], shown[v.width..], rest)
    ensures Reads(m, text, shown, rest)
  {
    hide Blank, EndMode;
    var v := Advance(m, text + rest);
    Unfold(m, text + rest);
    assert (text + rest)[v.width..] == text[v.width..] + rest;
    assert shown == v.out + shown[v.width..];
  }

  lemma {:induction false} QuotedReads(body: string, rest: string)
    requires StringBody(body)
    ensures Reads(Literal, body + "\"", body + "\"", rest)
    decreases |body|
  {
    hide Blank, EndMode;
    var text := body + "\"";
    if body == "" {
      ReadsNone(rest);
      ReadsStep(Literal, text, text, rest);
    } else if body[0] == '\\' {
      QuotedReads(body[2..], rest);
      assert text[1..][1..] == body[2..] + "\"";
      ReadsStep(Escaped, text[1..], text[1..], rest);
      ReadsStep(Literal, text, text, rest);
    } else {
      QuotedReads(body[1..], rest);
      assert text[1..] == body[1..] + "\"";
      ReadsStep(Literal, text, text, rest);
    }
  }

  lemma ReadsNone(rest: string)
    ensures Reads(Code, "", "", rest)
  {
    hide Blank, EndMode;
    assert "" + rest == rest;
  }

  lemma {:induction false} LineReads(body: string, rest: string)
    requires NoNewline(body) && (rest != "" ==> IsNewline(rest[0]))
    ensures Reads(LineComment, body, HideAll(body), rest)
  {
    hide Blank, EndMode;
    if body != "" {
      LineReads(body[1..], rest);
      ReadsStep(LineComment, body, HideAll(body), rest);
    } else {
      assert "" + rest == rest;
      if rest == "" {
        AtEnd(LineComment);
        AtEnd(Code);
      } else {
        Unfold(LineComment, rest);
        Unfold(Code, rest);
      }
    }
  }

  lemma {:induction false} BlockReads(body: string, rest: string)
    requires NoBlockEnd(body + "*")
    ensures Reads(BlockComment, body + "*/", HideAll(body) + "  ", rest)
  {
    hide Blank, EndMode;
    var text, shown := body + "*/", HideAll(body) + "  ";
    if body == "" {
      ReadsNone(rest);
      assert text[2..] == "" && shown[2..] == "";
      ReadsStep(BlockComment, text, shown, rest);
    } else {
      var next := body[1..] + "*";
      assert forall i | 0 <= i < |next| :: next[i] == (body + "*")[i + 1];
      BlockReads(body[1..], rest);
      assert text[1..] == body[1..] + "*/" && shown[1..] == HideAll(body[1..]) + "  ";
      assert (text + rest)[0] == (body + "*")[0] && (text + rest)[1] == text[1];
      assert |body| > 1 ==> text[1] == (body + "*")[1];
      ReadsStep(BlockComment, text, shown, rest);
    }
  }

  lemma PieceReads(p: Piece, rest: string)
    requires PieceOk(p, rest)
    ensures Reads(Code, Source(p), Shown(p), rest)
  {
    hide Blank, EndMode;
    var text, shown := Source(p), Shown(p);
    match p
    case Plain(c) =>
      ReadsNone(rest);
      assert (text + rest)[0] == c && (rest != "" ==> (text + rest)[1] == rest[0]);
      ReadsStep(Code, text, shown, rest);
    case Quoted(body) =>
      QuotedReads(body, rest);
      assert text[1..] == body + "\"";
      ReadsStep(Code, text, shown, rest);
    case LineNote(body) =>
      LineReads(body, rest);
      assert text[2..] == body && shown[2..] == HideAll(body);
      ReadsStep(Code, text, shown, rest);
    case BlockNote(body) =>
      BlockReads(body, rest);
      assert text[2..] == body + "*/" && shown[2..] == HideAll(body) + "  ";
      ReadsStep(Code, text, shown, rest);
  }

  lemma {:induction false} OpenQuoteReads(body: string)
    requires OpenBody(body)
    ensures Blank(Literal, body) == body && EndMode(Literal, body) != BlockComment
    decreases |body|
  {
    if body != "" && body[0] == '\\' && |body| > 1 {
      OpenQuoteReads(body[2..]);
      assert body[1..][1..] == body[2..];
    } else if body != "" && body[0] != '\\' {
      OpenQuoteReads(body[1..]);
    }
  }

  lemma {:induction false} OpenBlockReads(body: string)
    requires NoBlockEnd(body)
    ensures EndMode(BlockComment, body) == BlockComment
  {
    if body != "" {
      assert forall i | 0 <= i < |body| - 1 :: body[1..][i] == body[i + 1];
      OpenBlockReads(body[1..]);
    }
  }

  /** The stripper on a document: it fails exactly when the document ends inside a block comment,
  and otherwise shows the document with its comments blanked. */
  lemma {:induction false} StripsDocument(pieces: seq<Piece>, tail: Tail)
    requires WellFormed(pieces, tail)
    ensures EndMode(Code, SourceOf(pieces, tail)) == BlockComment <==> tail.OpenBlock?
    ensures !tail.OpenBlock? ==> Blank(Code, SourceOf(pieces, tail)) == ShownOf(pieces, tail)
  {
    hide Blank, EndMode;
    if pieces != [] {
      StripsDocument(pieces[1..], tail);
      PieceReads(pieces[0], SourceOf(pieces[1..], tail));
    } else {
      var text := TailSource(tail);
      match tail
      case Closed => AtEnd(Code);
      case OpenQuote(body) =>
        OpenQuoteReads(body);
        Unfold(Code, text);
        assert text[1..] == body;
      case OpenBlock(body) =>
        OpenBlockReads(body);
        Unfold(Code, text);
        assert text[2..] == body;
    }
  }

  // ---- Every text is a document ------------------------------------------------------------

  lemma {:induction false} StringEnd(s: string) returns (n: nat)
    ensures n <= |s| && (n == |s| ==> OpenBody(s)) && (n < |s| ==> s[n] == '"' && StringBody(s[..n]))
    decreases |s|
  {
    if s == "" || s[0] == '"' {
      n := 0;
    } else if s[0] == '\\' && |s| == 1 {
      n := 1;
    } else {
      var k := if s[0] == '\\' then 2 else 1;
      n := StringEnd(s[k..]);
      n := n + k;
      assert n < |s| ==> s[..n][k..] == s[k..][..n - k];
    }
  }

  lemma {:induction false} LineEnd(s: string) returns (n: nat)
    ensures n <= |s| && NoNewline(s[..n]) && (n < |s| ==> IsNewline(s[n]))
  {
    n := 0;
    while n < |s| && !IsNewline(s[n])
      invariant n <= |s| && NoNewline(s[..n])
    {
      n := n + 1;
    }
  }

  lemma {:induction false} BlockEnd(s: string) returns (n: nat)
    ensures n <= |s| && (n == |s| ==> NoBlockEnd(s))
    ensures n < |s| ==> n + 2 <= |s| && s[n] == '*' && s[n + 1] == '/' && NoBlockEnd(s[..n] + "*")
  {
    n := 0;
    while n < |s| && !(n + 1 < |s| && s[n] == '*' && s[n + 1] == '/')
      invariant n <= |s|
      invariant forall i | 0 <= i < n && i + 1 < |s| :: !(s[i] == '*' && s[i + 1] == '/')
    {
      n := n + 1;
    }
  }

  /** `first` starts a reading of `s`: with a first piece, or as a text that is all tail. */
  ghost predicate Starts(s: string, first: Document) {
    if first.pieces == [] then TailSource(first.tail) == s && WellFormed([], first.tail)
    else
      var p := first.pieces[0];
      0 < |Source(p)| <= |s| && s == Source(p) + s[|Source(p)|..] && PieceOk(p, s[|Source(p)|..])
  }

  lemma QuotedStart(s: string) returns (first: Document)
    requires s != "" && s[0] == '"'
    ensures Starts(s, first)
  {
    hide StringBody, OpenBody;
    var n := StringEnd(s[1..]);
    if n == |s| - 1 {
      assert s == "\"" + s[1..];
      return Document([], OpenQuote(s[1..]));
    }
    var p := Quoted(s[1..][..n]);
    assert s == Source(p) + s[n + 2..];
    first := Document([p], Closed);
  }

  lemma LineStart(s: string) returns (first: Document)
    requires |s| > 1 && s[0] == '/' && s[1] == '/'
    ensures Starts(s, first)
  {
    hide NoNewline;
    var n := LineEnd(s[2..]);
    var p := LineNote(s[2..][..n]);
    assert s == Source(p) + s[n + 2..];
    first := Document([p], Closed);
  }

  lemma BlockStart(s: string) returns (first: Document)
    requires |s| > 1 && s[0] == '/' && s[1] == '*'
    ensures Starts(s, first)
  {
    hide NoBlockEnd;
    var n := BlockEnd(s[2..]);
    if n == |s| - 2 {
      assert s == "/*" + s[2..];
      return Document([], OpenBlock(s[2..]));
    }
    var p := BlockNote(s[2..][..n]);
    assert s == Source(p) + s[n + 4..];
    first := Document([p], Closed);
  }

  lemma FirstReading(s: string) returns (first: Document)
    requires s != ""
    ensures Starts(s, first)
  {
    if s[0] == '"' {
      first := QuotedStart(s);
    } else if s[0] == '/' && |s| > 1 && s[1] == '/' {
      first := LineStart(s);
    } else if s[0] == '/' && |s| > 1 && s[1] == '*' {
      first := BlockStart(s);
    } else {
      assert s == Source(Plain(s[0])) + s[1..];
      first := Document([Plain(s[0])], Closed);
    }
  }

  /** Every text has a reading in the grammar, so `StripsDocument` covers every input. */
  lemma {:induction false} EveryTextIsADocument(s: string) returns (d: Document)
    ensures WellFormed(d.pieces, d.tail) && SourceOf(d.pieces, d.tail) == s
    decreases |s|
  {
    hide PieceOk, Source, TailSource;
    if s == "" {
      NothingLeft();
      return Document([], Closed);
    }
    d := FirstReading(s);
    if d.pieces != [] {
      var p := d.pieces[0];
      d := EveryTextIsADocument(s[|Source(p)|..]);
      assert ([p] + d.pieces)[1..] == d.pieces;
      d := Document([p] + d.pieces, d.tail);
    }
  }

  lemma NothingLeft()
    ensures TailSource(Closed) == ""
  {
  }

  /** The stripper's answer for any input: after one byte-order mark, the input read by the grammar
  with its comments blanked, or an error when that reading ends inside a block comment. */
  lemma StripIsShown(data: string) returns (d: Document)
    ensures WellFormed(d.pieces, d.tail) && SourceOf(d.pieces, d.tail) == TrimBom(data)
    ensures Strip(data) == if d.tail.OpenBlock? then Unterminated else Ok(ShownOf(d.pieces, d.tail))
    ensures Strip(data).Ok? ==>
              && |Strip(data).text| == |TrimBom(data)|
              && forall i: nat | i < |TrimBom(data)| ::
                   var c := TrimBom(data)[i];
                   Strip(data).text[i] == if InComment(d.pieces, d.tail, i) && c != '\n' && c != '\r' then ' ' else c
  {
    hide Blank, EndMode, WellFormed, SourceOf, ShownOf, InComment;
    d := EveryTextIsADocument(TrimBom(data));
    StripsDocument(d.pieces, d.tail);
    ShownByteByByte(d.pieces, d.tail);
  }
}
