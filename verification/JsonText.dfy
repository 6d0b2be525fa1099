/** JSON strings as bytes: the UTF-8 decoding of one rune, the encoder's escapes, and the
    matching string reader of section 7 of RFC 8259. */
module JsonText {
  import opened Basics

  newtype Byte = x: int | 0 <= x < 0x100
  type Text = seq<Byte>

  const QUOTE: Byte := 0x22
  const BACKSLASH: Byte := 0x5C

  predicate IsCont(b: Byte) { 0x80 <= b <= 0xBF }

  /** The length of the UTF-8 rune at the head of s, or 0 when its bytes form none. */
  function RuneLen(s: Text): (n: nat)
    ensures n <= |s| && n <= 4
  {
    if s == [] then 0
    else
      var b := s[0];
      if b < 0x80 then 1
      else if |s| < 2 then 0
      else if 0xC2 <= b <= 0xDF then (if IsCont(s[1]) then 2 else 0)
      else if |s| < 3 then 0
      else if 0xE0 <= b <= 0xEF then
        (if (if b == 0xE0 then 0xA0 <= s[1] <= 0xBF else if b == 0xED then 0x80 <= s[1] <= 0x9F else IsCont(s[1]))
            && IsCont(s[2])
         then 3 else 0)
      else if |s| < 4 then 0
      else if 0xF0 <= b <= 0xF4 then
        (if (if b == 0xF0 then 0x90 <= s[1] <= 0xBF else if b == 0xF4 then 0x80 <= s[1] <= 0x8F else IsCont(s[1]))
            && IsCont(s[2]) && IsCont(s[3])
         then 4 else 0)
      else 0
  }

  /** The bytes of the replacement character U+FFFD. */
  const REPLACEMENT: Text := [0xEF, 0xBF, 0xBD]

  /** How many bytes the encoder consumes at the head of s: a rune, or one bad byte. */
  function Step(s: Text): (n: nat)
    requires s != []
    ensures 0 < n <= |s|
  {
    if RuneLen(s) == 0 then 1 else RuneLen(s)
  }

  /** What those bytes stand for: themselves, or the replacement character. */
  function Meaning(s: Text): Text
    requires s != []
  {
    if RuneLen(s) == 0 then REPLACEMENT else s[..RuneLen(s)]
  }

  predicate ValidUtf8(s: Text) { s == [] || (RuneLen(s) > 0 && ValidUtf8(s[RuneLen(s)..])) }

  /** The string with every bad byte replaced. */
  function Repair(s: Text): Text {
    if s == [] then [] else Meaning(s) + Repair(s[Step(s)..])
  }

  function HexDigit(d: int): Byte
    requires 0 <= d < 16
  {
    if d < 10 then (0x30 + d) as Byte else (0x61 + d - 10) as Byte
  }

  function UnicodeEscape(cp: int): (r: Text)
    requires 0 <= cp < 0x1_0000
    ensures |r| == 6
  {
    [BACKSLASH, 0x75, HexDigit(cp / 0x1000), HexDigit(cp / 0x100 % 16), HexDigit(cp / 16 % 16), HexDigit(cp % 16)]
  }

  /** An ASCII byte as the encoder writes it: quotes, backslashes, controls and the three
      characters special to HTML are escaped. */
  function EscapeAscii(b: Byte): Text
    requires b < 0x80
  {
    if b == QUOTE || b == BACKSLASH then [BACKSLASH, b]
    else if b == 0x08 then [BACKSLASH, 0x62]
    else if b == 0x0C then [BACKSLASH, 0x66]
    else if b == 0x0A then [BACKSLASH, 0x6E]
    else if b == 0x0D then [BACKSLASH, 0x72]
    else if b == 0x09 then [BACKSLASH, 0x74]
    else if b < 0x20 || b == 0x3C || b == 0x3E || b == 0x26 then UnicodeEscape(b as int)
    else [b]
  }

  /** The rune at the head of s as the encoder writes it. */
  function EscapeOne(s: Text): (r: Text)
    requires s != []
    ensures r != []
  {
    if s[0] < 0x80 then EscapeAscii(s[0])
    else if RuneLen(s) == 0 then UnicodeEscape(0xFFFD)
    else if RuneLen(s) == 3 && s[..3] == [0xE2, 0x80, 0xA8] then UnicodeEscape(0x2028)
    else if RuneLen(s) == 3 && s[..3] == [0xE2, 0x80, 0xA9] then UnicodeEscape(0x2029)
    else s[..RuneLen(s)]
  }

  function Escape(s: Text): Text {
    if s == [] then [] else EscapeOne(s) + Escape(s[Step(s)..])
  }

  function Quoted(s: Text): Text { [QUOTE] + Escape(s) + [QUOTE] }

  // ------------------------------------------------------------------ reading

  function HexValue(b: Byte): (r: Option<int>)
    ensures r.Some? ==> 0 <= r.value < 16
  {
    if 0x30 <= b <= 0x39 then Some(b as int - 0x30)
    else if 0x61 <= b <= 0x66 then Some(b as int - 0x61 + 10)
    else if 0x41 <= b <= 0x46 then Some(b as int - 0x41 + 10)
    else None
  }

  /** The code unit of a \uXXXX escape whose four digits are the head of t. */
  function ReadHex4(t: Text): (r: Option<int>)
    ensures r.Some? ==> |t| >= 4 && 0 <= r.value < 0x1_0000
  {
    if |t| < 4 then None
    else
      var a :- HexValue(t[0]);
      var b :- HexValue(t[1]);
      var c :- HexValue(t[2]);
      var d :- HexValue(t[3]);
      Some(a * 0x1000 + b * 0x100 + c * 16 + d)
  }

  predicate IsSurrogate(cp: int) { 0xD800 <= cp < 0xE000 }

  /** The UTF-8 bytes of a code point. */
  function Utf8(cp: int): Text
    requires 0 <= cp < 0x11_0000
  {
    if cp < 0x80 then [cp as Byte]
    else if cp < 0x800 then [(0xC0 + cp / 64) as Byte, (0x80 + cp % 64) as Byte]
    else if cp < 0x1_0000 then [(0xE0 + cp / 4096) as Byte, (0x80 + cp / 64 % 64) as Byte, (0x80 + cp % 64) as Byte]
    else [(0xF0 + cp / 262144) as Byte, (0x80 + cp / 4096 % 64) as Byte, (0x80 + cp / 64 % 64) as Byte,
        (0x80 + cp % 64) as Byte]
  }

  /** The low half of a surrogate pair, if the text goes on with one. */
  function ReadLow(t: Text): Option<int> {
    if |t| < 6 || t[0] != BACKSLASH || t[1] != 0x75 then None
    else
      var low :- ReadHex4(t[2..]);
      if 0xDC00 <= low < 0xE000 then Some(low) else None
  }

  /** What one character stands for and how many bytes it takes. */
  datatype Char = Char(bytes: Text, width: nat)

  function ReadUnicode(t: Text): (r: Option<Char>)
    requires |t| >= 2
    ensures r.Some? ==> 0 < r.value.width <= |t|
  {
    var cp :- ReadHex4(t[2..]);
    if !IsSurrogate(cp) then Some(Char(Utf8(cp), 6))
    else if cp < 0xDC00 && ReadLow(t[6..]).Some? then
      Some(Char(Utf8(0x1_0000 + (cp - 0xD800) * 0x400 + (ReadLow(t[6..]).value - 0xDC00)), 12))
    else Some(Char(REPLACEMENT, 6))
  }

  /** One character inside a string: a raw rune, a bad byte, or an escape. */
  function ReadChar(t: Text): (r: Option<Char>)
    requires t != []
    ensures r.Some? ==> 0 < r.value.width <= |t|
  {
    if t[0] == BACKSLASH then
      if |t| < 2 then None
      else if t[1] == 0x75 then ReadUnicode(t)
      else if t[1] == QUOTE || t[1] == BACKSLASH || t[1] == 0x2F then Some(Char([t[1]], 2))
      else if t[1] == 0x62 then Some(Char([0x08], 2))
      else if t[1] == 0x66 then Some(Char([0x0C], 2))
      else if t[1] == 0x6E then Some(Char([0x0A], 2))
      else if t[1] == 0x72 then Some(Char([0x0D], 2))
      else if t[1] == 0x74 then Some(Char([0x09], 2))
      else None
    else if t[0] < 0x20 then None
    else Some(Char(Meaning(t), Step(t)))
  }

  /** The rest of a string after its opening quote: its content and what follows the closing one. */
  function ReadChars(t: Text): (r: Option<(Text, Text)>)
    ensures r.Some? ==> |r.value.1| < |t|
    decreases |t|
  {
    if t == [] then None
    else if t[0] == QUOTE then Some(([], t[1..]))
    else
      var c :- ReadChar(t);
      var more :- ReadChars(t[c.width..]);
      Some((c.bytes + more.0, more.1))
  }

  // ------------------------------------------------------------------ the two undo each other

  lemma HexBack(d: int)
    requires 0 <= d < 16
    ensures HexValue(HexDigit(d)) == Some(d)
  {
  }

  lemma Hex4Back(t: Text, cp: int)
    requires 0 <= cp < 0x1_0000 && |t| >= 4
    requires t[0] == HexDigit(cp / 0x1000) && t[1] == HexDigit(cp / 0x100 % 16)
    requires t[2] == HexDigit(cp / 16 % 16) && t[3] == HexDigit(cp % 16)
    ensures ReadHex4(t) == Some(cp)
  {
    hide HexValue, HexDigit;
    HexBack(cp / 0x1000);
    HexBack(cp / 0x100 % 16);
    HexBack(cp / 16 % 16);
    HexBack(cp % 16);
    FourDigits(cp);
  }

  lemma FourDigits(cp: int)
    requires 0 <= cp < 0x1_0000
    ensures cp == cp / 0x1000 * 0x1000 + cp / 0x100 % 16 * 0x100 + cp / 16 % 16 * 16 + cp % 16
  {
    var a, b := cp / 0x100, cp / 16;
    assert a == cp / 0x1000 * 16 + a % 16;
    assert b == a * 16 + b % 16;
  }

  lemma UnicodeBack(cp: int, u: Text)
    requires 0 <= cp < 0x1_0000 && !IsSurrogate(cp)
    ensures ReadChar(UnicodeEscape(cp) + u) == Some(Char(Utf8(cp), 6))
  {
    hide HexValue, HexDigit, ReadHex4, Utf8;
    var t := UnicodeEscape(cp) + u;
    Hex4Back(t[2..], cp);
  }

  lemma AsciiBack(b: Byte, u: Text)
    requires b < 0x80
    ensures EscapeAscii(b)[0] != QUOTE
    ensures ReadChar(EscapeAscii(b) + u) == Some(Char([b], |EscapeAscii(b)|))
  {
    hide ReadUnicode, UnicodeEscape;
    var t := EscapeAscii(b) + u;
    if |EscapeAscii(b)| == 1 {
      assert t[0] == b && t[..1] == [b];
    } else if |EscapeAscii(b)| == 2 {
      assert t[0] == BACKSLASH && t[1] == EscapeAscii(b)[1];
    } else {
      UnicodeBack(b as int, u);
      UnicodeHead(b as int);
    }
  }

  lemma UnicodeHead(cp: int)
    requires 0 <= cp < 0x1_0000
    ensures UnicodeEscape(cp)[0] == BACKSLASH
  {
  }

  /** The rune at the head of a text does not depend on what follows it. */
  lemma RuneLocal(s: Text, u: Text)
    requires RuneLen(s) > 0
    ensures RuneLen(s[..RuneLen(s)] + u) == RuneLen(s)
  {
  }

  /** A rune written as it is. */
  lemma RawBack(s: Text, u: Text)
    requires s != [] && s[0] >= 0x80 && RuneLen(s) > 0
    ensures ReadChar(s[..RuneLen(s)] + u) == Some(Char(s[..RuneLen(s)], RuneLen(s)))
  {
    RuneLocal(s, u);
    hide RuneLen;
    var t := s[..RuneLen(s)] + u;
    assert t[0] == s[0] && t[..RuneLen(s)] == s[..RuneLen(s)];
  }

  /** A rune or bad byte written as an escape of the code point cp. */
  lemma EscapedBack(cp: int, bytes: Text, u: Text)
    requires 0 <= cp < 0x1_0000 && !IsSurrogate(cp) && Utf8(cp) == bytes
    ensures UnicodeEscape(cp)[0] != QUOTE
    ensures ReadChar(UnicodeEscape(cp) + u) == Some(Char(bytes, |UnicodeEscape(cp)|))
  {
    hide ReadChar;
    UnicodeHead(cp);
    UnicodeBack(cp, u);
  }

  lemma SpecialUtf8()
    ensures Utf8(0xFFFD) == REPLACEMENT
    ensures Utf8(0x2028) == [0xE2, 0x80, 0xA8]
    ensures Utf8(0x2029) == [0xE2, 0x80, 0xA9]
  {
  }

  lemma CharBack(s: Text, u: Text)
    requires s != []
    ensures EscapeOne(s)[0] != QUOTE
    ensures ReadChar(EscapeOne(s) + u) == Some(Char(Meaning(s), |EscapeOne(s)|))
  {
    if s[0] < 0x80 {
      assert Meaning(s) == [s[0]];
      hide ReadChar, EscapeAscii, RuneLen;
      AsciiBack(s[0], u);
    } else {
      hide ReadChar, UnicodeEscape, RuneLen, Utf8;
      SpecialUtf8();
      EscapedBack(0xFFFD, REPLACEMENT, u);
      EscapedBack(0x2028, [0xE2, 0x80, 0xA8], u);
      EscapedBack(0x2029, [0xE2, 0x80, 0xA9], u);
      if RuneLen(s) > 0 {
        RawBack(s, u);
      }
    }
  }

  /** Reading back an encoded string yields the string, with bad bytes replaced. */
  lemma {:induction false} StringBack(s: Text, rest: Text)
    ensures ReadChars(Escape(s) + [QUOTE] + rest) == Some((Repair(s), rest))
    decreases |s|
  {
    hide ReadChar, EscapeOne, RuneLen, Meaning, Step;
    if s == [] {
      assert ([] + [QUOTE] + rest)[1..] == rest;
    } else {
      var one, more := EscapeOne(s), s[Step(s)..];
      var u := Escape(more) + [QUOTE] + rest;
      CharBack(s, u);
      StringBack(more, rest);
      assert Escape(s) + [QUOTE] + rest == one + u;
      assert (one + u)[|one|..] == u;
      assert (one + u)[0] == one[0];
    }
  }

  /** Nothing needs replacing in well-formed UTF-8, and only there. */
  lemma {:induction false} RepairIsIdentity(s: Text)
    ensures Repair(s) == s <==> ValidUtf8(s)
    decreases |s|
  {
    hide RuneLen;
    if s != [] {
      var more := s[Step(s)..];
      RepairIsIdentity(more);
      assert s == s[..Step(s)] + more;
      RepairGrows(more);
      if RuneLen(s) == 0 {
        assert |Repair(s)| > |s|;
      } else if Repair(s) == s {
        assert Repair(s)[Step(s)..] == Repair(more);
      }
    }
  }

  lemma {:induction false} RepairGrows(s: Text)
    ensures |Repair(s)| >= |s|
    decreases |s|
  {
    if s != [] {
      RepairGrows(s[Step(s)..]);
    }
  }

  /** Well-formed pieces make a well-formed whole. */
  lemma {:induction false} ValidConcat(s: Text, t: Text)
    requires ValidUtf8(s) && ValidUtf8(t)
    ensures ValidUtf8(s + t)
    decreases |s|
  {
    if s == [] {
      assert s + t == t;
    } else {
      var n := RuneLen(s);
      RuneLocal(s, s[n..] + t);
      assert s + t == s[..n] + (s[n..] + t);
      ValidConcat(s[n..], t);
      assert (s + t)[n..] == s[n..] + t;
    }
  }

  lemma OneRune(s: Text)
    requires s != [] && RuneLen(s) == |s|
    ensures ValidUtf8(s)
  {
    assert s[|s|..] == [];
  }

  // ------------------------------------------------------------------ runes and scalar values

  predicate IsScalar(cp: int) { 0 <= cp < 0x11_0000 && !IsSurrogate(cp) }

  function Cont(d: int): Byte
    requires 0 <= d < 64
  {
    (0x80 + d) as Byte
  }

  lemma TwoBytes(a: int, b: int)
    requires 2 <= a < 32 && 0 <= b < 64
    ensures RuneLen([(0xC0 + a) as Byte, Cont(b)]) == 2
  {
  }

  lemma ThreeBytes(a: int, b: int, c: int)
    requires 0 <= a < 16 && 0 <= b < 64 && 0 <= c < 64 && (a == 0 ==> b >= 0x20) && (a == 0xD ==> b < 0x20)
    ensures RuneLen([(0xE0 + a) as Byte, Cont(b), Cont(c)]) == 3
  {
  }

  lemma FourBytes(a: int, b: int, c: int, d: int)
    requires 0 <= a <= 4 && 0 <= b < 64 && 0 <= c < 64 && 0 <= d < 64
    requires (a == 0 ==> b >= 0x10) && (a == 4 ==> b < 0x10)
    ensures RuneLen([(0xF0 + a) as Byte, Cont(b), Cont(c), Cont(d)]) == 4
  {
  }

  /** The encoding of a scalar value is one rune. */
  lemma Utf8IsRune(cp: int)
    requires IsScalar(cp)
    ensures Utf8(cp) != [] && RuneLen(Utf8(cp)) == |Utf8(cp)|
  {
    if cp < 0x80 {
    } else if cp < 0x800 {
      hide RuneLen;
      TwoBytes(cp / 64, cp % 64);
    } else if cp < 0x1_0000 {
      hide RuneLen;
      ThreeBytes(cp / 4096, cp / 64 % 64, cp % 64);
    } else {
      hide RuneLen;
      FourBytes(cp / 262144, cp / 4096 % 64, cp / 64 % 64, cp % 64);
    }
  }

  lemma Utf8Valid(cp: int)
    requires IsScalar(cp)
    ensures ValidUtf8(Utf8(cp))
  {
    hide RuneLen, Utf8;
    Utf8IsRune(cp);
    OneRune(Utf8(cp));
  }

  /** The scalar value a rune stands for. */
  function Scalar(s: Text): int
    requires RuneLen(s) > 0
  {
    match RuneLen(s)
    case 1 => s[0] as int
    case 2 => (s[0] as int - 0xC0) * 64 + (s[1] as int - 0x80)
    case 3 => (s[0] as int - 0xE0) * 4096 + (s[1] as int - 0x80) * 64 + (s[2] as int - 0x80)
    case _ =>
      (s[0] as int - 0xF0) * 262144 + (s[1] as int - 0x80) * 4096 + (s[2] as int - 0x80) * 64 + (s[3] as int - 0x80)
  }

  lemma TwoBack(a: int, b: int)
    requires 2 <= a < 32 && 0 <= b < 64
    ensures IsScalar(a * 64 + b) && Utf8(a * 64 + b) == [(0xC0 + a) as Byte, Cont(b)]
  {
    var cp := a * 64 + b;
    assert cp / 64 == a && cp % 64 == b;
  }

  lemma ThreeBack(a: int, b: int, c: int)
    requires 0 <= a < 16 && 0 <= b < 64 && 0 <= c < 64 && (a == 0 ==> b >= 0x20) && (a == 0xD ==> b < 0x20)
    ensures var cp := a * 4096 + b * 64 + c;
            IsScalar(cp) && Utf8(cp) == [(0xE0 + a) as Byte, Cont(b), Cont(c)]
  {
    var cp := a * 4096 + b * 64 + c;
    assert cp / 4096 == a && cp / 64 == a * 64 + b && cp % 64 == c;
    assert cp / 64 % 64 == b;
  }

  lemma FourBack(a: int, b: int, c: int, d: int)
    requires 0 <= a <= 4 && 0 <= b < 64 && 0 <= c < 64 && 0 <= d < 64
    requires (a == 0 ==> b >= 0x10) && (a == 4 ==> b < 0x10)
    ensures var cp := a * 262144 + b * 4096 + c * 64 + d;
            IsScalar(cp) && Utf8(cp) == [(0xF0 + a) as Byte, Cont(b), Cont(c), Cont(d)]
  {
    var cp := a * 262144 + b * 4096 + c * 64 + d;
    assert cp / 262144 == a && cp / 4096 == a * 64 + b && cp / 64 == a * 4096 + b * 64 + c && cp % 64 == d;
    assert cp / 4096 % 64 == b && cp / 64 % 64 == c;
  }

  /** The payload of the i-th byte of a rune. */
  function Payload(s: Text, i: nat): int
    requires i < |s|
  {
    s[i] as int - 0x80
  }

  lemma RuneParts(s: Text)
    requires RuneLen(s) > 0
    ensures RuneLen(s) <= |s| && (RuneLen(s) == 1 <==> s[0] < 0x80)
    ensures forall i | 0 < i < RuneLen(s) :: 0 <= Payload(s, i) < 64
    ensures RuneLen(s) == 2 ==> 2 <= s[0] as int - 0xC0 < 32
    ensures RuneLen(s) == 3 ==>
              var a := s[0] as int - 0xE0;
              0 <= a < 16 && (a == 0 ==> Payload(s, 1) >= 0x20) && (a == 0xD ==> Payload(s, 1) < 0x20)
    ensures RuneLen(s) == 4 ==>
              var a := s[0] as int - 0xF0;
              0 <= a <= 4 && (a == 0 ==> Payload(s, 1) >= 0x10) && (a == 4 ==> Payload(s, 1) < 0x10)
  {
  }

  lemma ThreeByteRune(s: Text)
    requires RuneLen(s) == 3
    ensures IsScalar(Scalar(s)) && Utf8(Scalar(s)) == s[..3]
  {
    RuneParts(s);
    hide RuneLen, Utf8, IsScalar;
    ThreeBack(s[0] as int - 0xE0, Payload(s, 1), Payload(s, 2));
    assert s[..3] == [s[0], s[1], s[2]];
  }

  lemma FourByteRune(s: Text)
    requires RuneLen(s) == 4
    ensures IsScalar(Scalar(s)) && Utf8(Scalar(s)) == s[..4]
  {
    RuneParts(s);
    hide RuneLen, Utf8, IsScalar;
    FourBack(s[0] as int - 0xF0, Payload(s, 1), Payload(s, 2), Payload(s, 3));
    assert s[..4] == [s[0], s[1], s[2], s[3]];
  }

  lemma RuneIsUtf8(s: Text)
    requires RuneLen(s) > 0
    ensures IsScalar(Scalar(s)) && Utf8(Scalar(s)) == s[..RuneLen(s)]
  {
    RuneParts(s);
    hide RuneLen, Utf8, IsScalar;
    match RuneLen(s)
    case 1 => OneBack(s[0]);
    case 2 =>
      TwoBack(s[0] as int - 0xC0, Payload(s, 1));
      assert s[..2] == [s[0], s[1]];
    case 3 => ThreeByteRune(s);
    case _ => FourByteRune(s);
  }

  lemma OneBack(b: Byte)
    requires b < 0x80
    ensures IsScalar(b as int) && Utf8(b as int) == [b]
  {
  }

  /** A rune is exactly the encoding of a scalar value (section 3 of RFC 3629). */
  lemma RuneExactlyWhen(s: Text, n: nat)
    requires 0 < n <= |s|
    ensures RuneLen(s) == n <==> exists cp :: IsScalar(cp) && Utf8(cp) == s[..n]
  {
    if RuneLen(s) == n {
      RuneIsUtf8(s);
    }
    hide RuneLen, Utf8;
    if cp :| IsScalar(cp) && Utf8(cp) == s[..n] {
      Utf8IsRune(cp);
      RuneLocal(Utf8(cp), s[n..]);
      assert s[..n][..n] + s[n..] == s;
    }
  }

  lemma CharValid(t: Text)
    requires t != [] && ReadChar(t).Some?
    ensures ValidUtf8(ReadChar(t).value.bytes)
  {
    OneRune(REPLACEMENT);
    if t[0] == BACKSLASH {
      if t[1] == 0x75 {
        var cp := ReadHex4(t[2..]).value;
        if !IsSurrogate(cp) {
          Utf8Valid(cp);
        } else if cp < 0xDC00 && ReadLow(t[6..]).Some? {
          Utf8Valid(0x1_0000 + (cp - 0xD800) * 0x400 + (ReadLow(t[6..]).value - 0xDC00));
        }
      } else {
        OneRune(ReadChar(t).value.bytes);
      }
    } else if RuneLen(t) > 0 {
      RuneLocal(t, []);
      assert t[..RuneLen(t)] + [] == t[..RuneLen(t)];
      OneRune(t[..RuneLen(t)]);
    }
  }

  /** Whatever text a string is read from, the string is well-formed. */
  lemma {:induction false} ReadValid(t: Text)
    requires ReadChars(t).Some?
    ensures ValidUtf8(ReadChars(t).value.0)
    decreases |t|
  {
    if t[0] != QUOTE {
      var c := ReadChar(t).value;
      CharValid(t);
      ReadValid(t[c.width..]);
      ValidConcat(c.bytes, ReadChars(t[c.width..]).value.0);
    }
  }
}
