/** Canonical session ids: `ses_`, twelve hex digits in descending time layout, fourteen base-62
characters. The hash is an input; its digests are 32 bytes. */
module SessionId {
  import opened Arithmetic
  import opened JsText

  type Byte = b: int | 0 <= b < 256

  type Digest = d: seq<Byte> | |d| == 32 witness seq(32, _ => 0)

  type Hash = string -> Digest

  const HEX := "0123456789abcdef"

  const WORD48 := 0x1_0000_0000_0000

  // ---- Patterns ----------------------------------------------------------------------------

  predicate IsHex(c: char) {
    '0' <= c <= '9' || 'a' <= c <= 'f'
  }

  predicate IsBase62(c: char) {
    '0' <= c <= '9' || 'A' <= c <= 'Z' || 'a' <= c <= 'z'
  }

  predicate AllHex(s: string) {
    forall i | 0 <= i < |s| :: IsHex(s[i])
  }

  predicate AllBase62(s: string) {
    forall i | 0 <= i < |s| :: IsBase62(s[i])
  }

  /** ^ses_[0-9a-f]{12}[0-9A-Za-z]{14}$ */
  predicate IsSessionShape(s: string) {
    |s| == 30 && s[..4] == "ses_" && AllHex(s[4..16]) && AllBase62(s[16..])
  }

  /** ^[0-9a-f]{9}f[c-f][0-9a-f]$ */
  predicate IsDescending(s: string) {
    |s| == 12 && AllHex(s) && s[9] == 'f' && 'c' <= s[10] <= 'f'
  }

  predicate IsCanonical(s: string) {
    IsSessionShape(s) && IsDescending(s[4..16])
  }

  // ---- The time part -----------------------------------------------------------------------

  function Pack(a: int, b: int, c: int, d: int, e: int): int {
    a * 0x1000_0000 + b * 0x10_0000 + c * 0x1000 + d * 0x10 + e
  }

  /** Bytes 0 to 3 and the high half of byte 4, as one 36-bit number. The shifted fields do not
  overlap, so the code's OR is a sum; `FieldsDoNotOverlap` is that fact. */
  function Timestamp(h: seq<Byte>): int
    requires |h| >= 5
  {
    Pack(h[0], h[1], h[2], h[3], h[4] / 16)
  }

  lemma FieldsDoNotOverlap(a: bv64, b: bv64, c: bv64, d: bv64, e: bv64)
    requires a < 256 && b < 256 && c < 256 && d < 256 && e < 256
    ensures var t := (a << 28) | (b << 20) | (c << 12) | (d << 4) | (e >> 4);
            && t == (a << 28) + (b << 20) + (c << 12) + (d << 4) + (e >> 4)
            && !((t << 12) | 1) & 0xffff_ffff_ffff == 0xffff_ffff_ffff - ((t << 12) + 1)
  {
  }

  /** The 48-bit word: timestamp above, counter one below, inverted. */
  function Word(h: seq<Byte>): (w: nat)
    requires |h| >= 5
    ensures w < WORD48
  {
    WORD48 - 1 - (Timestamp(h) * 4096 + 1)
  }

  /** BigInt.prototype.toString(16). */
  function ToString16(n: nat): string {
    if n < 16 then [HEX[n]] else ToString16(n / 16) + [HEX[n % 16]]
  }

  function PadStart(s: string, width: nat): string
    decreases width - |s|
  {
    if |s| >= width then s else PadStart("0" + s, width)
  }

  function DescendingTimePart(h: seq<Byte>): string
    requires |h| >= 5
  {
    PadStart(ToString16(Word(h)), 12)
  }

  /** Exactly `width` digits, most significant first. */
  function Digits(n: nat, width: nat): (s: string)
    ensures |s| == width && AllHex(s)
  {
    if width == 0 then "" else Digits(n / 16, width - 1) + [HEX[n % 16]]
  }

  function HexValue(c: char): int {
    if '0' <= c <= '9' then c as int - '0' as int else c as int - 'a' as int + 10
  }

  /** Reading a hex string back. */
  function Parse16(s: string): int {
    if s == "" then 0 else 16 * Parse16(s[..|s| - 1]) + HexValue(s[|s| - 1])
  }

  function Pow16(k: nat): nat {
    if k == 0 then 1 else 16 * Pow16(k - 1)
  }

  lemma HexDigit(d: nat)
    requires d < 16
    ensures IsHex(HEX[d]) && HexValue(HEX[d]) == d
  {
  }

  lemma {:induction false} ParseDigits(n: nat, width: nat)
    requires n < Pow16(width)
    ensures Parse16(Digits(n, width)) == n
  {
    if width > 0 {
      ParseDigits(n / 16, width - 1);
      HexDigit(n % 16);
      assert Digits(n, width)[..width - 1] == Digits(n / 16, width - 1);
    }
  }

  lemma {:induction false} PadZeros(s: string, width: nat)
    requires |s| <= width
    ensures PadStart(s, width) == seq(width - |s|, _ => '0') + s
    decreases width - |s|
  {
    if |s| < width {
      PadZeros("0" + s, width);
      assert seq(width - |s|, _ => '0') + s == seq(width - |s| - 1, _ => '0') + ("0" + s);
    }
  }

  lemma {:induction false} ZeroDigits(width: nat)
    ensures Digits(0, width) == seq(width, _ => '0')
  {
    if width > 0 {
      ZeroDigits(width - 1);
    }
  }

  lemma DigitsStep(n: nat, width: nat)
    requires width > 0
    ensures Digits(n, width) == Digits(n / 16, width - 1) + [HEX[n % 16]]
  {
  }

  lemma ToStringStep(n: nat)
    ensures ToString16(n) == if n < 16 then [HEX[n]] else ToString16(n / 16) + [HEX[n % 16]]
  {
  }

  lemma {:induction false} ToStringIsDigits(n: nat, width: nat)
    requires n < Pow16(width) && width > 0
    ensures 1 <= |ToString16(n)| <= width
    ensures Digits(n, width) == seq(width - |ToString16(n)|, _ => '0') + ToString16(n)
  {
    DigitsStep(n, width);
    ToStringStep(n);
    hide Digits, ToString16;
    var last := [HEX[n % 16]];
    if n < 16 {
      ZeroDigits(width - 1);
    } else {
      ToStringIsDigits(n / 16, width - 1);
      var front := ToString16(n / 16);
      var zeros := seq(width - 1 - |front|, _ => '0');
      assert (zeros + front) + last == zeros + (front + last);
    }
  }

  lemma TimestampRange(h: seq<Byte>)
    requires |h| >= 5
    ensures 0 <= Timestamp(h) < 0x10_0000_0000
    ensures Word(h) % 4096 == 0xffe
  {
    assert Word(h) == 4096 * (0x10_0000_0000 - 1 - Timestamp(h)) + 0xffe;
  }

  lemma PaddedIsDigits(h: seq<Byte>)
    requires |h| >= 5
    ensures DescendingTimePart(h) == Digits(Word(h), 12) && Word(h) < Pow16(12)
  {
    TimestampRange(h);
    assert Pow16(12) == WORD48 by {
      assert Pow16(4) == 65536;
      assert Pow16(8) == 0x1_0000_0000;
    }
    ToStringIsDigits(Word(h), 12);
    PadZeros(ToString16(Word(h)), 12);
  }

  /** Reading the time part back gives the digest bits it was made from, and counter one. */
  lemma TimePartDecodes(h: seq<Byte>)
    requires |h| >= 5
    ensures var word := WORD48 - 1 - Parse16(DescendingTimePart(h));
            word / 4096 == Timestamp(h) && word % 4096 == 1
  {
    PaddedIsDigits(h);
    ParseDigits(Word(h), 12);
  }

  /** The timestamp holds the digest's first 36 bits: every byte can be read off it. */
  lemma TimestampDecodes(h: seq<Byte>)
    requires |h| >= 5
    ensures var t := Timestamp(h);
            && t % 16 == h[4] / 16 && t / 16 % 256 == h[3] && t / 16 / 256 % 256 == h[2]
            && t / 16 / 256 / 256 % 256 == h[1] && t / 16 / 256 / 256 / 256 == h[0]
  {
    var a: int, b: int, c: int, d: int, e: int := h[0], h[1], h[2], h[3], h[4] / 16;
    var t1 := 256 * a + b;
    var t2 := 256 * t1 + c;
    var t3 := 256 * t2 + d;
    Residue(16, t3, e);
    Residue(256, t2, d);
    Residue(256, t1, c);
    Residue(256, a, b);
    assert Timestamp(h) == 16 * t3 + e;
  }

  lemma LastDigits(n: nat, width: nat)
    requires width >= 3
    ensures var s := Digits(n, width);
            && s[width - 1] == HEX[n % 16] && s[width - 2] == HEX[n / 16 % 16]
            && s[width - 3] == HEX[n / 16 / 16 % 16]
  {
    assert Digits(n, width)[width - 2] == Digits(n / 16, width - 1)[width - 2];
    assert Digits(n, width)[width - 3] == Digits(n / 16, width - 1)[width - 3];
    assert Digits(n / 16, width - 1)[width - 3] == Digits(n / 16 / 16, width - 2)[width - 3];
  }

  lemma LowNibbles(w: int)
    requires w >= 0 && w % 4096 == 0xffe
    ensures w % 16 == 14 && w / 16 % 16 == 15 && w / 16 / 16 % 16 == 15
  {
    var q := w / 4096;
    assert w == 16 * (16 * (16 * q + 15) + 15) + 14;
    Residue(16, 16 * (16 * q + 15) + 15, 14);
    Residue(16, 16 * q + 15, 15);
    Residue(16, q, 15);
  }

  /** The time part always has the layout the free tier checks. */
  lemma TimePartIsDescending(h: seq<Byte>)
    requires |h| >= 5
    ensures IsDescending(DescendingTimePart(h))
  {
    hide DescendingTimePart, Digits, Word;
    PaddedIsDigits(h);
    TimestampRange(h);
    LastDigits(Word(h), 12);
    LowNibbles(Word(h));
    assert HEX[15] == 'f' && HEX[14] == 'e';
  }

  // ---- The id ------------------------------------------------------------------------------

  /** The alphabet: digits, then upper case, then lower case. */
  function Base62(d: int): (c: char)
    requires 0 <= d < 62
    ensures IsBase62(c)
  {
    if d < 10 then ('0' as int + d) as char
    else if d < 36 then ('A' as int + d - 10) as char
    else ('a' as int + d - 36) as char
  }

  function Tail(bytes: seq<Byte>): (s: string)
    ensures |s| == |bytes| && AllBase62(s)
  {
    if bytes == [] then "" else Tail(bytes[..|bytes| - 1]) + [Base62(bytes[|bytes| - 1] % 62)]
  }

  /** Place of a character in the alphabet 0-9, A-Z, a-z. */
  function Base62Value(c: char): int {
    if '0' <= c <= '9' then c as int - 48
    else if 'A' <= c <= 'Z' then c as int - 55
    else c as int - 61
  }

  /** Reading the tail back gives every byte modulo 62, in order. */
  lemma {:induction false} TailDecodes(bytes: seq<Byte>, i: nat)
    requires i < |bytes|
    ensures Base62Value(Tail(bytes)[i]) == bytes[i] % 62
  {
    hide IsBase62;
    var n := |bytes| - 1;
    if i < n {
      TailDecodes(bytes[..n], i);
      assert Tail(bytes)[i] == Tail(bytes[..n])[i];
    } else {
      Base62Decodes(bytes[n] % 62);
    }
  }

  lemma Base62Decodes(d: int)
    requires 0 <= d < 62
    ensures Base62Value(Base62(d)) == d
  {
  }

  function CanonicalZenSessionId(hash: Hash, seed: string): string {
    var value := Trim(seed);
    if IsCanonical(value) then value
    else
      var digest := hash(value);
      "ses_" + DescendingTimePart(digest[..6]) + Tail(digest[6..20])
  }

  /** The code, with its loop over the digest's tail. */
  method ComputeSessionId(hash: Hash, seed: string) returns (id: string)
    ensures id == CanonicalZenSessionId(hash, seed)
  {
    hide DescendingTimePart, IsCanonical, Trim, Base62;
    var value := Trim(seed);
    if IsCanonical(value) {
      return value;
    }
    var digest := hash(value);
    var bytes := digest[6..20];
    var tail := "";
    for i := 0 to |bytes|
      invariant tail == Tail(bytes[..i])
    {
      assert bytes[..i + 1][..i] == bytes[..i];
      tail := tail + [Base62(bytes[i] % 62)];
    }
    assert bytes[..|bytes|] == bytes;
    id := "ses_" + DescendingTimePart(digest[..6]) + tail;
  }

  /** Every seed gets an id the gateway accepts. */
  lemma AlwaysCanonical(hash: Hash, seed: string)
    ensures IsCanonical(CanonicalZenSessionId(hash, seed))
  {
    hide DescendingTimePart, Trim;
    var value := Trim(seed);
    if !IsCanonical(value) {
      var digest := hash(value);
      var part, tail := DescendingTimePart(digest[..6]), Tail(digest[6..20]);
      var id := "ses_" + part + tail;
      TimePartIsDescending(digest[..6]);
      assert id[..4] == "ses_" && id[4..16] == part && id[16..] == tail;
    }
  }

  lemma CanonicalIsTrimmed(s: string)
    requires IsCanonical(s)
    ensures Trim(s) == s
  {
    assert s[0] == s[..4][0] == 's';
    assert s[29] == s[16..][13];
    assert IsBase62(s[29]) && !IsSpace(s[29]) && !IsSpace(s[0]);
  }

  /** Canonical ids are left alone, so the mapping is idempotent. */
  lemma Idempotent(hash: Hash, seed: string)
    ensures CanonicalZenSessionId(hash, CanonicalZenSessionId(hash, seed)) == CanonicalZenSessionId(hash, seed)
  {
    hide DescendingTimePart, Trim, IsCanonical;
    AlwaysCanonical(hash, seed);
    CanonicalIsTrimmed(CanonicalZenSessionId(hash, seed));
  }

  /** A seed passes through unhashed exactly when, trimmed, it already is such an id. */
  lemma PassesThroughIff(hash: Hash, seed: string)
    ensures CanonicalZenSessionId(hash, seed) == Trim(seed) <==> IsCanonical(Trim(seed))
  {
    hide DescendingTimePart, Trim, IsCanonical;
    AlwaysCanonical(hash, seed);
  }

  /** From a hashed id the first 36 bits of the digest can be read back, and each of bytes 6 to 19
  modulo 62. */
  lemma HashedIdDecodes(hash: Hash, seed: string)
    requires !IsCanonical(Trim(seed))
    ensures var id, digest := CanonicalZenSessionId(hash, seed), hash(Trim(seed));
            && |id| == 30
            && (WORD48 - 1 - Parse16(id[4..16])) / 4096 == Timestamp(digest)
            && forall i | 16 <= i < 30 :: Base62Value(id[i]) == digest[i - 10] % 62
  {
    hide DescendingTimePart, Trim, IsCanonical, Parse16, Tail, Base62Value;
    var digest := hash(Trim(seed));
    var part := DescendingTimePart(digest[..6]);
    TimePartDecodes(digest[..6]);
    PaddedIsDigits(digest[..6]);
    var id, bytes := "ses_" + part + Tail(digest[6..20]), digest[6..20];
    assert id[4..16] == part && id[16..] == Tail(bytes);
    forall i | 16 <= i < 30 ensures Base62Value(id[i]) == digest[i - 10] % 62 {
      TailDecodes(bytes, i - 16);
      assert id[i] == id[16..][i - 16] && bytes[i - 16] == digest[i - 10];
    }
    assert Timestamp(digest[..6]) == Timestamp(digest);
  }
}
