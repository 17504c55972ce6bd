/** Token cost of one text.

Texts are sequences of code points (lone surrogates included). Only the choice between the short
and the long rule looks at UTF-16 units. All arithmetic is over exact reals; IEEE rounding is not
modelled. */
module Estimator {
  type CodePoint = c: int | 0 <= c <= 0x10FFFF

  type Text = seq<CodePoint>

  datatype Class = Letters | Digits | Struct | Other | Wide

  const LONG_RUN := 16
  const RANDOM_MIN_LENGTH := 6
  const WORD_VOWEL_FLOOR := 0.28
  const STRUCTURED_RATIO := 0.08
  const DIGITS_RATIO := 0.1
  const WIDE_TOKENS := 1.1
  const EMOJI_TOKENS := 3.0
  const SPACE_TOKENS := 1.0 / 16.0
  const NEWLINE_TOKENS := 0.5

  /** Characters per token of the four ASCII classes. */
  datatype Table = Table(letters: real, digits: real, struct: real, other: real)

  const WORD := Table(3.6, 2.6, 1.7, 1.7)
  const STRUCTURED := Table(2.4, 1.35, 1.8, 1.4)
  const DATA := Table(1.2, 2.2, 1.5, 1.3)
  const WORDLIKE_LETTERS := 2.6

  predicate IsStructural(c: CodePoint) {
    c < 128 && (c as char) in "\"'{}[]<>()=:,;.!?&%$#@*|/\\^~`+-"
  }

  predicate IsVowel(c: CodePoint) {
    c < 128 && (c as char) in "aeiouAEIOU"
  }

  function Classify(c: CodePoint): Class {
    if c > 0x7f then Wide
    else if 65 <= c <= 90 || 97 <= c <= 122 then Letters
    else if 48 <= c <= 57 then Digits
    else if IsStructural(c) then Struct
    else Other
  }

  predicate IsEmoji(c: CodePoint) {
    || 0x1f000 <= c <= 0x1faff
    || 0x2600 <= c <= 0x27bf
    || 0x1f1e6 <= c <= 0x1f1ff
    || 0x2190 <= c <= 0x21ff
    || 0x2b00 <= c <= 0x2bff
    || c == 0xfe0f
    || c == 0x200d
  }

  function WideCost(c: CodePoint): real {
    if IsEmoji(c) then EMOJI_TOKENS else WIDE_TOKENS
  }

  function Vowels(run: Text): nat {
    if run == [] then 0
    else Vowels(run[..|run| - 1]) + (if IsVowel(run[|run| - 1]) then 1 else 0)
  }

  // ---- Short runs: one charge per same-class fragment --------------------------------------

  function AtLeastOne(length: nat, perToken: real): real
    requires perToken > 0.0
  {
    var whole := (length as real / perToken).Floor;
    if whole >= 1 then whole as real else 1.0
  }

  function FragmentCost(kind: Class, length: nat, vowels: nat): real
    requires kind != Wide && length > 0
  {
    match kind
    case Letters =>
      if length >= RANDOM_MIN_LENGTH && vowels as real / length as real < WORD_VOWEL_FLOOR
      then length as real / DATA.letters
      else AtLeastOne(length, WORD.letters)
    case Digits => AtLeastOne(length, WORD.digits)
    case Struct => AtLeastOne(length, WORD.struct)
    case Other => AtLeastOne(length, WORD.other)
  }

  /** Length of the leading stretch of code points of one class. */
  function Stretch(kind: Class, run: Text): (n: nat)
    ensures n <= |run|
    ensures forall i | 0 <= i < n :: Classify(run[i]) == kind
    ensures n < |run| ==> Classify(run[n]) != kind
  {
    if run != [] && Classify(run[0]) == kind then 1 + Stretch(kind, run[1..]) else 0
  }

  /** Sum over wide code points and maximal same-class fragments. */
  function ShortCost(run: Text): real
    decreases |run|
  {
    if run == [] then 0.0
    else
      var kind := Classify(run[0]);
      if kind == Wide then WideCost(run[0]) + ShortCost(run[1..])
      else
        var n := Stretch(kind, run);
        FragmentCost(kind, n, Vowels(run[..n])) + ShortCost(run[n..])
  }

  /** Cost of an open fragment and everything after it. */
  ghost function Open(kind: Class, length: nat, vowels: nat, rest: Text): real
    requires kind != Wide && length > 0
  {
    var n := Stretch(kind, rest);
    FragmentCost(kind, length + n, vowels + Vowels(rest[..n])) + ShortCost(rest[n..])
  }

  lemma {:induction false} VowelsFirst(run: Text)
    requires run != []
    ensures Vowels(run) == (if IsVowel(run[0]) then 1 else 0) + Vowels(run[1..])
  {
    hide IsVowel;
    if |run| > 1 {
      VowelsFirst(run[..|run| - 1]);
      assert run[..|run| - 1][1..] == run[1..][..|run| - 2];
    }
  }

  lemma OpenGrows(kind: Class, length: nat, vowels: nat, rest: Text)
    requires kind != Wide && length > 0 && rest != [] && Classify(rest[0]) == kind
    ensures Open(kind, length, vowels, rest)
         == Open(kind, length + 1, vowels + (if IsVowel(rest[0]) then 1 else 0), rest[1..])
  {
    hide IsVowel, Classify, FragmentCost, ShortCost;
    var n := Stretch(kind, rest);
    VowelsFirst(rest[..n]);
    assert rest[..n][1..] == rest[1..][..n - 1];
    assert rest[1..][n - 1..] == rest[n..];
  }

  lemma OpenCloses(kind: Class, length: nat, vowels: nat, rest: Text)
    requires kind != Wide && length > 0 && (rest != [] ==> Classify(rest[0]) != kind)
    ensures Open(kind, length, vowels, rest) == FragmentCost(kind, length, vowels) + ShortCost(rest)
  {
    hide IsVowel, Classify, FragmentCost, ShortCost;
    assert rest[..0] == [] && rest[0..] == rest;
  }

  lemma ShortStep(run: Text)
    requires run != [] && Classify(run[0]) != Wide
    ensures var kind := Classify(run[0]);
            var n := Stretch(kind, run);
            && n == 1 + Stretch(kind, run[1..])
            && ShortCost(run) == FragmentCost(kind, n, Vowels(run[..n])) + ShortCost(run[n..])
  {
    hide IsVowel, Classify, FragmentCost, Vowels;
  }

  lemma OpenStarts(rest: Text)
    requires rest != [] && Classify(rest[0]) != Wide
    ensures ShortCost(rest) == Open(Classify(rest[0]), 1, if IsVowel(rest[0]) then 1 else 0, rest[1..])
  {
    hide IsVowel, Classify, FragmentCost, Vowels, ShortCost, Stretch;
    ShortStep(rest);
    var kind := Classify(rest[0]);
    var n := Stretch(kind, rest);
    VowelsFirst(rest[..n]);
    assert rest[..n][1..] == rest[1..][..n - 1];
    assert rest[1..][n - 1..] == rest[n..];
  }

  /** The flushing machine of the code. A zero length stands for "no class yet". */
  method ShortRunTokens(run: Text) returns (tokens: real)
    ensures tokens == ShortCost(run)
  {
    hide IsVowel, Classify, FragmentCost, ShortCost, Open, WideCost;
    tokens := 0.0;
    var className, length, vowels := Other, 0, 0;
    for i := 0 to |run|
      invariant className != Wide
      invariant tokens + (if length > 0 then Open(className, length, vowels, run[i..]) else ShortCost(run[i..]))
                == ShortCost(run)
    {
      var kind := Classify(run[i]);
      assert run[i..][0] == run[i] && run[i..][1..] == run[i + 1..];
      if kind == Wide {
        if length > 0 {
          OpenCloses(className, length, vowels, run[i..]);
          tokens := tokens + FragmentCost(className, length, vowels);
        }
        length, vowels := 0, 0;
        WideFirst(run[i..]);
        tokens := tokens + WideCost(run[i]);
      } else if length > 0 && kind == className {
        OpenGrows(className, length, vowels, run[i..]);
        length := length + 1;
        if IsVowel(run[i]) {
          vowels := vowels + 1;
        }
      } else {
        if length > 0 {
          OpenCloses(className, length, vowels, run[i..]);
          tokens := tokens + FragmentCost(className, length, vowels);
        }
        OpenStarts(run[i..]);
        className, length, vowels := kind, 1, if IsVowel(run[i]) then 1 else 0;
      }
    }
    assert run[|run|..] == [];
    ShortNothing();
    if length > 0 {
      OpenCloses(className, length, vowels, []);
      tokens := tokens + FragmentCost(className, length, vowels);
    }
  }

  lemma WideFirst(run: Text)
    requires run != [] && Classify(run[0]) == Wide
    ensures ShortCost(run) == WideCost(run[0]) + ShortCost(run[1..])
  {
  }

  lemma ShortNothing()
    ensures ShortCost([]) == 0.0
  {
  }

  // ---- Long runs: one linear charge from a table chosen by the mix -------------------------

  datatype Mix = Mix(letters: nat, digits: nat, struct: nat, other: nat, wide: nat, emoji: nat, vowels: nat)

  function Sum(a: Mix, b: Mix): Mix {
    Mix(a.letters + b.letters, a.digits + b.digits, a.struct + b.struct, a.other + b.other,
        a.wide + b.wide, a.emoji + b.emoji, a.vowels + b.vowels)
  }

  /** What one code point counts as: one of its class, and vowels and emoji once more. */
  function Unit(c: CodePoint): Mix {
    match Classify(c)
    case Letters => Mix(1, 0, 0, 0, 0, 0, if IsVowel(c) then 1 else 0)
    case Digits => Mix(0, 1, 0, 0, 0, 0, 0)
    case Struct => Mix(0, 0, 1, 0, 0, 0, 0)
    case Other => Mix(0, 0, 0, 1, 0, 0, 0)
    case Wide => Mix(0, 0, 0, 0, 1, if IsEmoji(c) then 1 else 0, 0)
  }

  function Count(run: Text): Mix {
    if run == [] then Mix(0, 0, 0, 0, 0, 0, 0) else Sum(Count(run[..|run| - 1]), Unit(run[|run| - 1]))
  }

  /** A run is counted like its parts. */
  lemma {:induction false} CountAppend(a: Text, b: Text)
    ensures Count(a + b) == Sum(Count(a), Count(b))
  {
    hide Count;
    if b == [] {
      assert a + b == a;
      CountNone();
    } else {
      var front, last := b[..|b| - 1], b[|b| - 1];
      CountAppend(a, front);
      CountSnoc(a + front, last);
      CountSnoc(front, last);
      assert a + b == (a + front) + [last] && b == front + [last];
    }
  }

  lemma CountNone()
    ensures Count([]) == Mix(0, 0, 0, 0, 0, 0, 0)
  {
  }

  lemma CountSnoc(run: Text, c: CodePoint)
    ensures Count(run + [c]) == Sum(Count(run), Unit(c))
  {
    hide Unit;
    assert (run + [c])[..|run|] == run;
  }

  /** How many code points of a run are of a kind. */
  function Number(run: Text, what: CodePoint -> bool): nat {
    if run == [] then 0 else Number(run[..|run| - 1], what) + (if what(run[|run| - 1]) then 1 else 0)
  }

  const LETTER: CodePoint -> bool := (c: CodePoint) => 65 <= c <= 90 || 97 <= c <= 122
  const DIGIT: CodePoint -> bool := (c: CodePoint) => 48 <= c <= 57
  const SIGN: CodePoint -> bool := (c: CodePoint) => IsStructural(c)
  const WIDE: CodePoint -> bool := (c: CodePoint) => c > 127
  const EMOJI: CodePoint -> bool := (c: CodePoint) => c > 127 && IsEmoji(c)
  const VOWEL: CodePoint -> bool := (c: CodePoint) => c in {65, 69, 73, 79, 85, 97, 101, 105, 111, 117}

  lemma NumberSnoc(run: Text, c: CodePoint, what: CodePoint -> bool)
    ensures Number(run + [c], what) == Number(run, what) + (if what(c) then 1 else 0)
  {
    assert (run + [c])[..|run|] == run;
  }

  lemma UnitIs(c: CodePoint)
    ensures var m := Unit(c);
            && m.letters == (if LETTER(c) then 1 else 0) && m.digits == (if DIGIT(c) then 1 else 0)
            && m.struct == (if SIGN(c) then 1 else 0) && m.wide == (if WIDE(c) then 1 else 0)
            && m.emoji == (if EMOJI(c) then 1 else 0) && m.vowels == (if VOWEL(c) then 1 else 0)
            && m.letters + m.digits + m.struct + m.other + m.wide == 1
  {
    VowelCodes(c);
    hide IsEmoji, IsVowel, IsStructural;
  }

  lemma VowelCodes(c: CodePoint)
    ensures IsVowel(c) <==> VOWEL(c)
    ensures VOWEL(c) ==> LETTER(c)
    ensures IsStructural(c) ==> !LETTER(c) && !DIGIT(c) && c <= 127
  {
  }

  /** The counters are the numbers of letters, digits, signs and wide code points, of emoji among
  the wide ones and of vowels; whatever is left are the others. */
  lemma {:induction false} CountsAreNumbers(run: Text)
    ensures var m := Count(run);
            && m.letters == Number(run, LETTER) && m.digits == Number(run, DIGIT) && m.struct == Number(run, SIGN)
            && m.wide == Number(run, WIDE) && m.emoji == Number(run, EMOJI) && m.vowels == Number(run, VOWEL)
            && m.letters + m.digits + m.struct + m.other + m.wide == |run|
  {
    hide Unit, Count, Number;
    if run == [] {
      CountNone();
      NumberNone();
    } else {
      var front, c := run[..|run| - 1], run[|run| - 1];
      assert run == front + [c];
      CountsAreNumbers(front);
      CountSnoc(front, c);
      UnitIs(c);
      NumberSnoc(front, c, LETTER);
      NumberSnoc(front, c, DIGIT);
      NumberSnoc(front, c, SIGN);
      NumberSnoc(front, c, WIDE);
      NumberSnoc(front, c, EMOJI);
      NumberSnoc(front, c, VOWEL);
    }
  }

  lemma NumberNone()
    ensures forall what :: Number([], what) == 0
  {
  }

  function Ascii(m: Mix): nat {
    m.letters + m.digits + m.struct + m.other
  }

  /** Every table charges between 1/3.6 and 1/1.2 tokens per character. */
  predicate Moderate(t: Table) {
    && 1.2 <= t.letters <= 3.6 && 1.2 <= t.digits <= 3.6
    && 1.2 <= t.struct <= 3.6 && 1.2 <= t.other <= 3.6
  }

  function TableFor(m: Mix): (t: Table)
    requires Ascii(m) > 0
    ensures Moderate(t)
  {
    var ascii := Ascii(m) as real;
    var vowelFraction := if m.letters > 0 then m.vowels as real / m.letters as real else 0.0;
    var looksRandom := m.letters as real / ascii >= 0.6 && vowelFraction < WORD_VOWEL_FLOOR;
    if m.struct as real / ascii >= STRUCTURED_RATIO && !looksRandom then STRUCTURED
    else if m.digits as real / ascii >= DIGITS_RATIO then DATA
    else if m.letters as real / ascii >= 0.9 && vowelFraction >= WORD_VOWEL_FLOOR then WORD.(letters := WORDLIKE_LETTERS)
    else DATA
  }

  function MixCost(m: Mix): real {
    var wide := (m.wide - m.emoji) as real * WIDE_TOKENS + m.emoji as real * EMOJI_TOKENS;
    if Ascii(m) == 0 then wide
    else
      var t := TableFor(m);
      wide + (m.letters as real / t.letters + m.digits as real / t.digits
              + m.struct as real / t.struct + m.other as real / t.other)
  }

  method LongRunTokens(run: Text) returns (tokens: real)
    ensures tokens == MixCost(Count(run))
  {
    hide Classify, IsVowel, IsEmoji, MixCost;
    var letters, digits, struct, other, vowels, wide, emoji := 0, 0, 0, 0, 0, 0, 0;
    for i := 0 to |run|
      invariant Mix(letters, digits, struct, other, wide, emoji, vowels) == Count(run[..i])
    {
      assert run[..i + 1][..i] == run[..i];
      var kind := Classify(run[i]);
      if kind == Wide {
        wide := wide + 1;
        if IsEmoji(run[i]) {
          emoji := emoji + 1;
        }
      } else if kind == Letters {
        letters := letters + 1;
        if IsVowel(run[i]) {
          vowels := vowels + 1;
        }
      } else if kind == Digits {
        digits := digits + 1;
      } else if kind == Struct {
        struct := struct + 1;
      } else {
        other := other + 1;
      }
    }
    assert run[..|run|] == run;
    tokens := MixCost(Mix(letters, digits, struct, other, wide, emoji, vowels));
  }

  // ---- Texts: runs and white space ---------------------------------------------------------

  predicate IsGap(c: CodePoint) {
    c == 32 || c == 10 || c == 9
  }

  function GapCost(c: CodePoint): real {
    if c == 32 then SPACE_TOKENS else NEWLINE_TOKENS
  }

  function Utf16Units(run: Text): nat {
    if run == [] then 0 else Utf16Units(run[..|run| - 1]) + (if run[|run| - 1] > 0xFFFF then 2 else 1)
  }

  function RunCost(run: Text): real {
    if run == [] then 0.0
    else if Utf16Units(run) <= LONG_RUN then ShortCost(run)
    else MixCost(Count(run))
  }

  function RunLength(text: Text): (n: nat)
    ensures n <= |text|
    ensures forall i | 0 <= i < n :: !IsGap(text[i])
    ensures n < |text| ==> IsGap(text[n])
  {
    if text != [] && !IsGap(text[0]) then 1 + RunLength(text[1..]) else 0
  }

  /** Leading run, then its gap character, then the rest: the simple split. */
  function TextCost(text: Text): real
    decreases |text|
  {
    var n := RunLength(text);
    RunCost(text[..n])
    + (if n == |text| then 0.0 else GapCost(text[n]) + TextCost(text[n + 1..]))
  }

  lemma RunLengthOf(run: Text, rest: Text)
    requires (forall c | c in run :: !IsGap(c)) && (rest != [] ==> IsGap(rest[0]))
    ensures RunLength(run + rest) == |run|
  {
    var all := run + rest;
    assert forall i | 0 <= i < |run| :: all[i] == run[i] && run[i] in run;
    assert rest != [] ==> all[|run|] == rest[0];
  }

  lemma LeadingRun(run: Text, rest: Text)
    requires (forall c | c in run :: !IsGap(c)) && (rest != [] ==> IsGap(rest[0]))
    ensures TextCost(run + rest)
         == RunCost(run) + (if rest == [] then 0.0 else GapCost(rest[0]) + TextCost(rest[1..]))
  {
    hide RunCost, GapCost, IsGap, RunLength;
    RunLengthOf(run, rest);
    assert (run + rest)[..|run|] == run;
    assert rest != [] ==> (run + rest)[|run|] == rest[0] && (run + rest)[|run| + 1..] == rest[1..];
  }

  /** The accumulating loop of the code. */
  method TextTokens(text: Text) returns (tokens: real)
    ensures tokens == TextCost(text)
  {
    hide RunCost, GapCost, TextCost;
    tokens := 0.0;
    var run: Text := [];
    assert [] + text[0..] == text;
    for i := 0 to |text|
      invariant forall c | c in run :: !IsGap(c)
      invariant tokens + TextCost(run + text[i..]) == TextCost(text)
    {
      assert text[i..][0] == text[i] && text[i..][1..] == text[i + 1..];
      if IsGap(text[i]) {
        LeadingRun(run, text[i..]);
        if run != [] {
          var cost := RunTokens(run);
          tokens := tokens + cost;
        } else {
          NoRun();
        }
        run := [];
        tokens := tokens + GapCost(text[i]);
        assert [] + text[i + 1..] == text[i + 1..];
      } else {
        assert run + text[i..] == (run + [text[i]]) + text[i + 1..];
        run := run + [text[i]];
      }
    }
    LeadingRun(run, []);
    assert text[|text|..] == [];
    NoRun();
    if run != [] {
      var cost := RunTokens(run);
      tokens := tokens + cost;
    }
  }

  lemma NoRun()
    ensures RunCost([]) == 0.0
  {
  }

  method RunTokens(run: Text) returns (tokens: real)
    requires run != []
    ensures tokens == RunCost(run)
  {
    hide MixCost, ShortCost;
    if Utf16Units(run) <= LONG_RUN {
      tokens := ShortRunTokens(run);
    } else {
      tokens := LongRunTokens(run);
    }
  }

  /** Split law: cutting a text at a space, line feed or tab cuts its cost. A space costs a
  sixteenth of a token, the others half of one. */
  lemma SplitAtGap(a: Text, gap: CodePoint, b: Text)
    requires gap in {32, 10, 9}
    ensures TextCost(a + [gap] + b) == TextCost(a) + (if gap == 32 then 1.0 / 16.0 else 0.5) + TextCost(b)
  {
    hide TextCost;
    SplitAt(a, gap, b);
  }

  /** A run without gaps, alone, is charged by its length in UTF-16 units. */
  lemma LoneRun(run: Text)
    requires forall c | c in run :: c !in {32, 10, 9}
    ensures TextCost(run) == if run == [] then 0.0 else if Utf16Units(run) <= 16 then ShortCost(run) else MixCost(Count(run))
  {
    hide ShortCost, MixCost, TextCost, Count;
    LeadingRun(run, []);
    assert run + [] == run;
  }

  lemma {:induction false} SplitAt(a: Text, gap: CodePoint, b: Text)
    requires IsGap(gap)
    ensures TextCost(a + [gap] + b) == TextCost(a) + GapCost(gap) + TextCost(b)
    decreases |a|
  {
    hide RunCost, GapCost, IsGap, RunLength, TextCost;
    var n := RunLength(a);
    var run, rest := a[..n], a[n..];
    assert a == run + rest;
    LeadingRun(run, rest);
    if n == |a| {
      LeadingRun(run, [gap] + b);
      assert a + [gap] + b == run + ([gap] + b);
      assert ([gap] + b)[1..] == b;
    } else {
      LeadingRun(run, rest + [gap] + b);
      assert a + [gap] + b == run + (rest + [gap] + b);
      assert (rest + [gap] + b)[1..] == rest[1..] + [gap] + b;
      SplitAt(rest[1..], gap, b);
    }
  }

  /** Cutting a short run between two classes, or beside a wide code point, cuts its cost. */
  lemma {:induction false} SplitBetweenClasses(a: Text, b: Text)
    requires a != [] && b != [] && (Classify(a[|a| - 1]) != Classify(b[0]) || Classify(b[0]) == Wide)
    ensures ShortCost(a + b) == ShortCost(a) + ShortCost(b)
    decreases |a|
  {
    hide FragmentCost, WideCost, Classify;
    var kind := Classify(a[0]);
    var n := if kind == Wide then 1 else Stretch(kind, a);
    assert (a + b)[n..] == a[n..] + b && (a + b)[..n] == a[..n];
    if kind != Wide {
      StretchIn(kind, a, b);
    }
    if n == |a| {
      assert a[n..] == [] && [] + b == b;
    } else {
      assert a[n..][|a| - n - 1] == a[|a| - 1];
      SplitBetweenClasses(a[n..], b);
    }
  }

  lemma StretchIn(kind: Class, a: Text, b: Text)
    requires b != [] && (Stretch(kind, a) == |a| ==> Classify(b[0]) != kind)
    ensures Stretch(kind, a + b) == Stretch(kind, a)
  {
    hide Classify;
    var all := a + b;
    assert forall i | 0 <= i < |a| :: all[i] == a[i];
    assert all[|a|] == b[0];
  }

  // ---- Linear bounds -----------------------------------------------------------------------

  /** `n` code points cost between n/16 and 3n tokens. */
  ghost predicate Bounded(n: nat, cost: real) {
    n as real / 16.0 <= cost <= 3.0 * n as real
  }

  lemma FragmentBounded(kind: Class, length: nat, vowels: nat)
    requires kind != Wide && 0 < length <= LONG_RUN
    ensures Bounded(length, FragmentCost(kind, length, vowels))
  {
    FloorBounded(length, WORD.letters);
    FloorBounded(length, WORD.digits);
    FloorBounded(length, WORD.struct);
  }

  lemma FloorBounded(length: nat, perToken: real)
    requires 0 < length <= LONG_RUN && perToken >= 1.0
    ensures Bounded(length, AtLeastOne(length, perToken))
  {
    var l := length as real;
    var share := l / perToken;
    assert l == share * perToken;
    assert share >= 0.0;
    assert share * 1.0 <= share * perToken;
  }

  lemma {:induction false} ShortBounded(run: Text)
    requires |run| <= LONG_RUN
    ensures Bounded(|run|, ShortCost(run))
    decreases |run|
  {
    hide FragmentCost, Classify, IsEmoji;
    if run != [] {
      var kind := Classify(run[0]);
      if kind == Wide {
        ShortBounded(run[1..]);
      } else {
        var n := Stretch(kind, run);
        FragmentBounded(kind, n, Vowels(run[..n]));
        ShortBounded(run[n..]);
      }
    }
  }

  lemma {:induction false} CountIsLength(run: Text)
    ensures var m := Count(run); Ascii(m) + m.wide == |run| && m.emoji <= m.wide
  {
    if run != [] {
      CountIsLength(run[..|run| - 1]);
    }
  }

  lemma ShareBounded(n: nat, perToken: real)
    requires 1.2 <= perToken <= 3.6
    ensures Bounded(n, n as real / perToken)
  {
    var l := n as real;
    var share := l / perToken;
    assert l == share * perToken;
    assert share >= 0.0;
    assert share * 1.2 <= share * perToken <= share * 3.6;
  }

  lemma MixBounded(m: Mix)
    requires m.emoji <= m.wide
    ensures Bounded(Ascii(m) + m.wide, MixCost(m))
  {
    hide TableFor;
    if Ascii(m) > 0 {
      var t := TableFor(m);
      ShareBounded(m.letters, t.letters);
      ShareBounded(m.digits, t.digits);
      ShareBounded(m.struct, t.struct);
      ShareBounded(m.other, t.other);
    }
  }

  lemma {:induction false} UnitsCoverCodePoints(run: Text)
    ensures |run| <= Utf16Units(run)
  {
    if run != [] {
      UnitsCoverCodePoints(run[..|run| - 1]);
    }
  }

  lemma RunBounded(run: Text)
    ensures Bounded(|run|, RunCost(run))
  {
    hide MixCost, Count, ShortCost;
    UnitsCoverCodePoints(run);
    if Utf16Units(run) <= LONG_RUN {
      ShortBounded(run);
      if run == [] {
        NoRun();
      }
    } else {
      CountIsLength(run);
      MixBounded(Count(run));
    }
  }

  /** Linear sandwich: every text of n code points costs between n/16 and 3n tokens. */
  lemma {:induction false} TextBounded(text: Text)
    ensures Bounded(|text|, TextCost(text))
    decreases |text|
  {
    hide RunCost;
    var n := RunLength(text);
    RunBounded(text[..n]);
    if n < |text| {
      TextBounded(text[n + 1..]);
    }
  }

  /** Both bounds are met: by spaces, and by emoji. */
  lemma {:induction false} BoundsAreTight(n: nat)
    ensures TextCost(seq(n, _ => 32)) == n as real / 16.0
    ensures n <= 8 ==> TextCost(seq(n, _ => 0x1F600)) == 3.0 * n as real
  {
    var spaces: Text := seq(n, _ => 32);
    if n > 0 {
      BoundsAreTight(n - 1);
      assert RunLength(spaces) == 0;
      assert spaces[1..] == seq(n - 1, _ => 32);
    }
    if n <= 8 {
      EmojiRun(n);
      var faces: Text := seq(n, _ => 0x1F600);
      assert faces + [] == faces;
      LeadingRun(faces, []);
    }
  }

  lemma {:induction false} EmojiRun(n: nat)
    ensures var faces: Text := seq(n, _ => 0x1F600);
            ShortCost(faces) == 3.0 * n as real && Utf16Units(faces) == 2 * n
  {
    var faces: Text := seq(n, _ => 0x1F600);
    if n > 0 {
      EmojiRun(n - 1);
      assert faces[1..] == seq(n - 1, _ => 0x1F600) == faces[..n - 1];
    }
  }

  // ---- The charges in whole numbers --------------------------------------------------------

  lemma FloorOfTenths(length: nat, tenths: nat, perToken: real)
    requires length > 0 && tenths > 0 && perToken == tenths as real / 10.0
    ensures AtLeastOne(length, perToken) == (if 10 * length / tenths >= 1 then (10 * length / tenths) as real else 1.0)
  {
    var q := 10 * length / tenths;
    var share := length as real / perToken;
    assert share * perToken == length as real;
    assert share * tenths as real == (10 * length) as real;
    FloorBySteps(share, tenths, 10 * length, q);
  }

  lemma FloorBySteps(share: real, d: nat, n: nat, q: nat)
    requires d > 0 && share * d as real == n as real && q == n / d
    ensures share.Floor == q
  {
    var low, next := d * q, d * (q + 1);
    assert low <= n < next;
    assert low as real == q as real * d as real && next as real == (q + 1) as real * d as real;
    assert low as real <= n as real < next as real;
    Divides(share, q as real, d as real, n as real);
    Divides(share, (q + 1) as real, d as real, n as real);
    FloorIs(share, q);
  }

  lemma FloorIs(r: real, q: int)
    requires q as real <= r < (q + 1) as real
    ensures r.Floor == q
  {
  }

  lemma Divides(share: real, q: real, d: real, n: real)
    requires d > 0.0 && share * d == n
    ensures q * d <= n <==> q <= share
  {
    if q <= share {
      assert q * d <= share * d;
    } else {
      assert share * d < q * d;
    }
  }

  /** One fragment of a short run: a random-looking letter fragment is 1.2 letters a token; any other
  fragment a token for every 3.6 letters, 2.6 digits or 1.7 signs, rounded down, but at least one. */
  lemma FragmentInNumbers(kind: Class, length: nat, vowels: nat)
    requires kind != Wide && length > 0
    ensures var cost := FragmentCost(kind, length, vowels);
            if kind == Letters && length >= 6 && 100 * vowels < 28 * length then cost == length as real / 1.2
            else
              var whole := 10 * length / (if kind == Letters then 36 else if kind == Digits then 26 else 17);
              cost == if whole >= 1 then whole as real else 1.0
  {
    FloorOfTenths(length, 36, 3.6);
    FloorOfTenths(length, 26, 2.6);
    FloorOfTenths(length, 17, 1.7);
    ShareBelow(vowels, length, 28);
    hide AtLeastOne;
  }

  lemma ShareBelow(part: nat, whole: nat, percent: nat)
    requires whole > 0
    ensures part as real / whole as real < percent as real / 100.0 <==> 100 * part < percent * whole
  {
    var share := part as real / whole as real;
    var w := whole as real;
    assert share * w == part as real;
    var bound := percent as real / 100.0;
    assert bound * w * 100.0 == (percent * whole) as real;
    if share < bound {
      assert share * w < bound * w;
    } else {
      assert share * w >= bound * w;
    }
  }

  function Charge(m: Mix, t: Table): real
    requires t.letters > 0.0 && t.digits > 0.0 && t.struct > 0.0 && t.other > 0.0
  {
    (m.wide - m.emoji) as real * 1.1 + m.emoji as real * 3.0
    + (m.letters as real / t.letters + m.digits as real / t.digits
       + m.struct as real / t.struct + m.other as real / t.other)
  }

  /** Which table a long run is charged by: signs of at least 8% make it structured unless three
  fifths of it are letters with fewer than 28% vowels; else a tenth of digits makes it data; else
  nine tenths of letters with 28% vowels make it a word; else it is data. */
  lemma TableInNumbers(m: Mix)
    requires Ascii(m) > 0
    ensures var ascii := m.letters + m.digits + m.struct + m.other;
            var fewVowels := 100 * m.vowels < 28 * m.letters;
            MixCost(m)
            == if 100 * m.struct >= 8 * ascii && !(10 * m.letters >= 6 * ascii && fewVowels)
               then Charge(m, Table(2.4, 1.35, 1.8, 1.4))
               else if 10 * m.digits >= ascii then Charge(m, Table(1.2, 2.2, 1.5, 1.3))
               else if 10 * m.letters >= 9 * ascii && !fewVowels then Charge(m, Table(2.6, 2.6, 1.7, 1.7))
               else Charge(m, Table(1.2, 2.2, 1.5, 1.3))
  {
    var ascii := Ascii(m);
    ShareBelow(m.struct, ascii, 8);
    ShareBelow(m.digits, ascii, 10);
    ShareBelow(m.letters, ascii, 60);
    ShareBelow(m.letters, ascii, 90);
    if m.letters > 0 {
      ShareBelow(m.vowels, m.letters, 28);
    }
    TableBy(m);
  }

  lemma TableBy(m: Mix)
    requires Ascii(m) > 0
    ensures MixCost(m) == Charge(m, TableFor(m))
  {
    hide TableFor;
  }

  /** Text beyond ASCII costs 1.1 tokens a character, and three an emoji, whether its runs are short
  or long. */
  lemma WideText(run: Text)
    requires forall i | 0 <= i < |run| :: run[i] > 127
    ensures TextCost(run) == 1.1 * (|run| - Number(run, EMOJI)) as real + 3.0 * Number(run, EMOJI) as real
  {
    hide TextCost, ShortCost, MixCost, Count, Number;
    forall c | c in run ensures c !in {32, 10, 9} {
      var i :| 0 <= i < |run| && run[i] == c;
    }
    LoneRun(run);
    WideShort(run);
    WideLong(run);
  }

  lemma {:induction false} WideShort(run: Text)
    requires forall i | 0 <= i < |run| :: run[i] > 127
    ensures ShortCost(run) == 1.1 * (|run| - Number(run, EMOJI)) as real + 3.0 * Number(run, EMOJI) as real
    ensures run == [] ==> Number(run, EMOJI) == 0
  {
    hide Number, IsEmoji;
    NumberNone();
    if run != [] {
      WideShort(run[1..]);
      NumberFront(run, EMOJI);
      assert Classify(run[0]) == Wide;
    }
  }

  lemma {:induction false} NumberFront(run: Text, what: CodePoint -> bool)
    requires run != []
    ensures Number(run, what) == (if what(run[0]) then 1 else 0) + Number(run[1..], what)
  {
    if |run| > 1 {
      NumberFront(run[..|run| - 1], what);
      assert run[..|run| - 1][1..] == run[1..][..|run| - 2];
    }
  }

  lemma WideLong(run: Text)
    requires forall i | 0 <= i < |run| :: run[i] > 127
    ensures MixCost(Count(run)) == 1.1 * (|run| - Number(run, EMOJI)) as real + 3.0 * Number(run, EMOJI) as real
  {
    hide Count, IsEmoji;
    CountsAreNumbers(run);
    AllAre(run, WIDE);
  }

  lemma {:induction false} AllAre(run: Text, what: CodePoint -> bool)
    requires forall i | 0 <= i < |run| :: what(run[i])
    ensures Number(run, what) == |run|
  {
    if run != [] {
      AllAre(run[..|run| - 1], what);
    }
  }

  /** A run of one class is one fragment. */
  lemma OneFragment(kind: Class, run: Text)
    requires run != [] && kind != Wide && forall c | c in run :: Classify(c) == kind
    ensures ShortCost(run) == FragmentCost(kind, |run|, Vowels(run))
  {
    hide Classify, FragmentCost;
    assert forall i | 0 <= i < |run| :: run[i] in run;
    var n := Stretch(kind, run);
    assert run[..n] == run && run[n..] == [];
  }

  /** The text of a string of plain characters. */
  function TextOf(s: string): Text
    requires forall i | 0 <= i < |s| :: s[i] as int <= 127
  {
    seq(|s|, i requires 0 <= i < |s| => s[i] as int)
  }

  lemma ShortFragment(kind: Class, run: Text)
    requires 0 < |run| <= 3 && kind != Wide && (kind != Letters ==> |run| == 1 || (kind == Digits && |run| == 2))
    requires forall c | c in run :: Classify(c) == kind
    ensures ShortCost(run) == 1.0
  {
    hide ShortCost, Classify, Vowels, FragmentCost;
    OneFragment(kind, run);
    FragmentInNumbers(kind, |run|, Vowels(run));
  }

  /** `dur=42ms` is four tokens, one for each fragment. */
  lemma FragmentsExample()
    ensures ShortCost(TextOf("dur=42ms")) == 4.0
  {
    hide ShortCost, IsVowel;
    var a, b, c, d := TextOf("dur"), TextOf("="), TextOf("42"), TextOf("ms");
    assert TextOf("dur=42ms") == a + (b + (c + d));
    ShortFragment(Letters, a);
    ShortFragment(Struct, b);
    ShortFragment(Digits, c);
    ShortFragment(Letters, d);
    assert (c + d)[0] == c[0] && (b + (c + d))[0] == b[0];
    SplitBetweenClasses(c, d);
    SplitBetweenClasses(b, c + d);
    SplitBetweenClasses(a, b + (c + d));
  }
}
