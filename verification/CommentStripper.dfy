/** Blanking of `//` and `/* */` comments in a configuration file, byte for byte.

A byte is a character here. `Blank` is the machine of the code on values; `Document` is a grammar
of the same texts that mentions no state, and the two are proved to agree on every text. */
module CommentStripper {
  datatype Result = Ok(text: string) | Unterminated

  datatype Mode = Code | Literal | Escaped | LineComment | BlockComment

  datatype Move = Move(width: nat, mode: Mode, out: string)

  const BOM := "\U{EF}\U{BB}\U{BF}"

  predicate IsNewline(c: char) {
    c == '\n' || c == '\r'
  }

  function Hide(c: char): char {
    if IsNewline(c) then c else ' '
  }

  /** What the machine does with the front of a non-empty text. */
  function Advance(m: Mode, s: string): (v: Move)
    requires s != ""
    ensures 1 <= v.width <= |s| && |v.out| == v.width
  {
    var c := s[0];
    match m
    case LineComment => Move(1, if IsNewline(c) then Code else LineComment, [Hide(c)])
    case BlockComment =>
      if c == '*' && |s| > 1 && s[1] == '/' then Move(2, Code, "  ") else Move(1, BlockComment, [Hide(c)])
    case Escaped => Move(1, Literal, [c])
    case Literal => Move(1, if c == '\\' then Escaped else if c == '"' then Code else Literal, [c])
    case Code =>
      if c == '"' then Move(1, Literal, [c])
      else if c == '/' && |s| > 1 && s[1] == '/' then Move(2, LineComment, "  ")
      else if c == '/' && |s| > 1 && s[1] == '*' then Move(2, BlockComment, "  ")
      else Move(1, Code, [c])
  }

  function Blank(m: Mode, s: string): string
    decreases |s|
  {
    if s == "" then "" else var v := Advance(m, s); v.out + Blank(v.mode, s[v.width..])
  }

  function EndMode(m: Mode, s: string): Mode
    decreases |s|
  {
    if s == "" then m else var v := Advance(m, s); EndMode(v.mode, s[v.width..])
  }

  function TrimBom(data: string): string {
    if BOM <= data then data[3..] else data
  }

  function Strip(data: string): Result {
    var body := TrimBom(data);
    if EndMode(Code, body) == BlockComment then Unterminated else Ok(Blank(Code, body))
  }

  /** The loop of the code, with its four flags. */
  method StripJsonComments(input: string) returns (r: Result)
    ensures r == Strip(input)
  {
    hide EndMode, Blank;
    var data := if BOM <= input then input[3..] else input;
    var out := "";
    var inString, escaped, lineComment, blockComment := false, false, false, false;
    var i := 0;
    while i < |data|
      invariant 0 <= i <= |data|
      invariant OneMode(inString, escaped, lineComment, blockComment)
      invariant out + Blank(ModeOf(inString, escaped, lineComment, blockComment), data[i..]) == Blank(Code, data)
      invariant EndMode(ModeOf(inString, escaped, lineComment, blockComment), data[i..]) == EndMode(Code, data)
    {
      var current := data[i];
      ghost var mode, start, before := ModeOf(inString, escaped, lineComment, blockComment), i, out;
      if lineComment {
        if current == '\n' || current == '\r' {
          lineComment := false;
          out := out + [current];
        } else {
          out := out + " ";
        }
      } else if blockComment {
        if current == '*' && i + 1 < |data| && data[i + 1] == '/' {
          out := out + "  ";
          i := i + 1;
          blockComment := false;
        } else if current == '\n' || current == '\r' {
          out := out + [current];
        } else {
          out := out + " ";
        }
      } else if inString {
        out := out + [current];
        if escaped {
          escaped := false;
        } else if current == '\\' {
          escaped := true;
        } else if current == '"' {
          inString := false;
        }
      } else if current == '"' {
        inString := true;
        out := out + [current];
      } else if current == '/' && i + 1 < |data| && data[i + 1] == '/' {
        lineComment := true;
        out := out + "  ";
        i := i + 1;
      } else if current == '/' && i + 1 < |data| && data[i + 1] == '*' {
        blockComment := true;
        out := out + "  ";
        i := i + 1;
      } else {
        out := out + [current];
      }
      i := i + 1;
      OneStep(mode, data, start, before);
      assert out == before + Advance(mode, data[start..]).out;
    }
    assert data[i..] == "";
    AtEnd(ModeOf(inString, escaped, lineComment, blockComment));
    assert out + "" == out;
    if blockComment {
      return Unterminated;
    }
    return Ok(out);
  }

  ghost predicate OneMode(inString: bool, escaped: bool, lineComment: bool, blockComment: bool) {
    && (escaped ==> inString)
    && (lineComment ==> !blockComment && !inString)
    && (blockComment ==> !inString)
  }

  ghost function ModeOf(inString: bool, escaped: bool, lineComment: bool, blockComment: bool): Mode {
    if lineComment then LineComment
    else if blockComment then BlockComment
    else if escaped then Escaped
    else if inString then Literal
    else Code
  }

  lemma Unfold(m: Mode, s: string)
    requires s != ""
    ensures var v := Advance(m, s);
            && Blank(m, s) == v.out + Blank(v.mode, s[v.width..])
            && EndMode(m, s) == EndMode(v.mode, s[v.width..])
  {
  }

  lemma AtEnd(m: Mode)
    ensures Blank(m, "") == "" && EndMode(m, "") == m
  {
  }

  lemma OneStep(m: Mode, data: string, i: nat, out: string)
    requires i < |data|
    ensures var v := Advance(m, data[i..]);
            && out + Blank(m, data[i..]) == (out + v.out) + Blank(v.mode, data[i + v.width..])
            && EndMode(m, data[i..]) == EndMode(v.mode, data[i + v.width..])
  {
    hide Blank, EndMode;
    var v := Advance(m, data[i..]);
    Unfold(m, data[i..]);
    assert data[i..][v.width..] == data[i + v.width..];
  }

  // ---- Layout ------------------------------------------------------------------------------

  /** Same length; every byte is the input's or a space; line breaks stay and none appears. */
  lemma {:induction false} LayoutKept(m: Mode, s: string)
    ensures |Blank(m, s)| == |s|
    ensures forall i | 0 <= i < |s| ::
              && (Blank(m, s)[i] == s[i] || Blank(m, s)[i] == ' ')
              && (IsNewline(s[i]) || IsNewline(Blank(m, s)[i]) ==> Blank(m, s)[i] == s[i])
    decreases |s|
  {
    if s != "" {
      hide Blank;
      var v := Advance(m, s);
      Unfold(m, s);
      LayoutKept(v.mode, s[v.width..]);
      var rest := Blank(v.mode, s[v.width..]);
      forall i | v.width <= i < |s| ensures Blank(m, s)[i] == rest[i - v.width] && s[i] == s[v.width..][i - v.width] {
      }
    }
  }

  // ---- No comment is left, and a second pass finds nothing to do ---------------------------

  /** From `m`, the text never opens or continues a comment. */
  predicate CommentFree(m: Mode, s: string)
    decreases |s|
  {
    m != LineComment && m != BlockComment
    && (s == "" || var v := Advance(m, s); CommentFree(v.mode, s[v.width..]))
  }

  /** The mode in which the output continues when the input is in mode `m`. */
  function Outside(m: Mode): Mode {
    if m == LineComment || m == BlockComment then Code else m
  }

  lemma FreeUnfold(m: Mode, s: string)
    requires CommentFree(m, s)
    ensures m != LineComment && m != BlockComment
    ensures s != "" ==> var v := Advance(m, s); CommentFree(v.mode, s[v.width..]) && v.out == s[..v.width]
  {
    if s != "" {
      var v := Advance(m, s);
      assert CommentFree(v.mode, s[v.width..]);
    }
  }

  lemma {:induction false} FreeIsUnchanged(m: Mode, s: string)
    requires CommentFree(m, s)
    ensures Blank(m, s) == s && EndMode(m, s) != BlockComment
    decreases |s|
  {
    hide Blank, EndMode, CommentFree, Advance;
    FreeUnfold(m, s);
    if s == "" {
      AtEnd(m);
    } else {
      var v := Advance(m, s);
      Unfold(m, s);
      FreeIsUnchanged(v.mode, s[v.width..]);
      assert s == s[..v.width] + s[v.width..];
    }
  }

  lemma FirstOut(m: Mode, s: string)
    requires s != ""
    ensures |Blank(m, s)| == |s|
    ensures Blank(m, s)[0] == Advance(m, s).out[0]
  {
    LayoutKept(m, s);
  }

  lemma FreeCons(m: Mode, c: char, tail: string)
    requires m != LineComment && m != BlockComment
    requires var v := Advance(m, [c] + tail); v.width == 1 && CommentFree(v.mode, tail)
    ensures CommentFree(m, [c] + tail)
  {
    assert ([c] + tail)[1..] == tail;
  }

  lemma FreeStep(m: Mode, s: string, tail: string)
    requires s != "" && CommentFree(Outside(Advance(m, s).mode), tail)
    requires m == Code && Advance(m, s).width == 1 && s[0] == '/' && tail != "" ==> tail[0] != '/' && tail[0] != '*'
    ensures CommentFree(Outside(m), Advance(m, s).out + tail)
  {
    hide CommentFree;
    var v := Advance(m, s);
    if v.width == 2 {
      FreeCons(Code, ' ', tail);
      FreeCons(Code, ' ', " " + tail);
      assert v.out + tail == " " + (" " + tail);
    } else {
      var out := [v.out[0]] + tail;
      assert v.out + tail == out;
      assert Advance(Outside(m), out) == Move(1, Outside(v.mode), [out[0]]);
      FreeCons(Outside(m), v.out[0], tail);
    }
  }

  /** Lock step: reading the output follows reading the input, with comments read as blanks. */
  lemma {:induction false} OutputIsFree(m: Mode, s: string)
    ensures CommentFree(Outside(m), Blank(m, s))
    decreases |s|
  {
    hide Blank, EndMode, CommentFree;
    if s == "" {
      AtEnd(m);
      FreeAtEnd(Outside(m));
    } else {
      var v := Advance(m, s);
      var rest := s[v.width..];
      Unfold(m, s);
      OutputIsFree(v.mode, rest);
      if rest == "" {
        AtEnd(v.mode);
      } else {
        FirstOut(v.mode, rest);
        assert rest[0] == s[v.width];
      }
      FreeStep(m, s, Blank(v.mode, rest));
    }
  }

  lemma FreeAtEnd(m: Mode)
    requires m != LineComment && m != BlockComment
    ensures CommentFree(m, "")
  {
  }

  /** Running the stripper on its own output changes nothing, except that a byte-order mark that
  had survived the first pass is removed by the second; it survives exactly when there were two. */
  lemma SecondPass(data: string)
    requires Strip(data).Ok?
    ensures Strip(Strip(data).text) == Ok(Strip(data).text) <==> !(BOM + BOM <= data)
    ensures Strip(Strip(data).text) == Ok(TrimBom(Strip(data).text))
  {
    hide Blank, EndMode, CommentFree;
    var body := TrimBom(data);
    var out := Strip(data).text;
    OutputIsFree(Code, body);
    FreeAfterBom(out);
    FreeIsUnchanged(Code, TrimBom(out));
    BomSurvives(body);
    assert |TrimBom(out)| != |out| <==> BOM <= out;
    if BOM <= data && BOM <= body {
      assert data == data[..3] + body && body == body[..3] + body[3..];
      assert BOM + BOM == data[..6];
    }
    if BOM + BOM <= data {
      assert data[..6] == BOM + BOM;
      assert data[..3] == BOM && body[..3] == data[3..6] == BOM;
    }
  }

  /** Two marks and nothing else: one is left by the first pass, none by the second. */
  lemma TwoMarksExample()
    ensures Strip(BOM + BOM) == Ok(BOM) && Strip(BOM) == Ok("")
  {
    hide Blank, EndMode;
    assert (BOM + BOM)[..3] == BOM && TrimBom(BOM + BOM) == BOM && TrimBom(BOM) == "";
    PlainIsKept(BOM);
    AtEnd(Code);
  }

  lemma {:induction false} PlainIsKept(s: string)
    requires forall c | c in s :: c != '"' && c != '/'
    ensures Blank(Code, s) == s && EndMode(Code, s) == Code
  {
    hide Blank, EndMode;
    if s == "" {
      AtEnd(Code);
    } else {
      assert s[0] in s && forall c | c in s[1..] :: c in s;
      Unfold(Code, s);
      PlainIsKept(s[1..]);
      assert s == [s[0]] + s[1..];
    }
  }

  lemma FreeAfterBom(out: string)
    requires CommentFree(Code, out)
    ensures CommentFree(Code, TrimBom(out))
  {
    if BOM <= out {
      assert out[0] == BOM[0] && out[1] == BOM[1] && out[2] == BOM[2];
      assert CommentFree(Code, out[1..]);
      assert out[1..][1..] == out[2..];
      assert CommentFree(Code, out[2..]);
      assert out[2..][1..] == out[3..];
    }
  }

  lemma BomSurvives(body: string)
    ensures BOM <= Blank(Code, body) <==> BOM <= body
  {
    hide Blank, EndMode;
    LayoutKept(Code, body);
    var out := Blank(Code, body);
    if BOM <= body {
      assert body[0] == BOM[0] && body[1] == BOM[1] && body[2] == BOM[2];
      Unfold(Code, body);
      Unfold(Code, body[1..]);
      assert body[1..][1..] == body[2..];
      Unfold(Code, body[2..]);
      assert out == [body[0]] + ([body[1]] + ([body[2]] + Blank(Code, body[2..][1..])));
      assert out[..3] == BOM;
    }
    if BOM <= out {
      assert out[0] == BOM[0] && out[1] == BOM[1] && out[2] == BOM[2];
      assert body[..3] == BOM;
    }
  }
}
