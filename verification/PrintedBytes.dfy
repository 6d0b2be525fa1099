/** The bytes the encoder writes, fixed from outside it: which bytes never occur, which strings are
    written as they are, how everything else is escaped, and the layout around them. */
module PrintedBytes {
  import opened JsonText
  import opened Canonical

  /** The bytes of an ASCII string. */
  function Ascii(s: string): (t: Text)
    requires forall i | 0 <= i < |s| :: s[i] as int < 0x80
    ensures |t| == |s| && forall i | 0 <= i < |s| :: t[i] as int == s[i] as int
  {
    seq(|s|, i requires 0 <= i < |s| => s[i] as int as Byte)
  }

  // ------------------------------------------------------------------ bytes that never occur

  /** No control characters and none of the characters special to HTML. */
  predicate Harmless(b: Byte) { b >= 0x20 && b !in {0x26, 0x3C, 0x3E} }

  /** The UTF-8 bytes of U+2028 or U+2029. */
  predicate SeparatorAt(t: Text, i: int) {
    0 <= i && i + 2 < |t| && t[i] == 0xE2 && t[i + 1] == 0x80 && t[i + 2] in {0xA8, 0xA9}
  }

  predicate Clean(t: Text) {
    (forall i | 0 <= i < |t| :: Harmless(t[i])) && (forall i | 0 <= i < |t| :: !SeparatorAt(t, i))
  }

  /** Clean, and not starting inside a rune. */
  predicate CleanPiece(t: Text) { Clean(t) && (t == [] || !IsCont(t[0])) }

  lemma CleanConcat(s: Text, t: Text)
    requires CleanPiece(s) && CleanPiece(t)
    ensures CleanPiece(s + t)
  {
    forall i | 0 <= i < |s + t| ensures !SeparatorAt(s + t, i) {
      if i + 2 < |s| {
        assert !SeparatorAt(s, i);
      } else if i >= |s| {
        assert !SeparatorAt(t, i - |s|);
      }
    }
  }

  lemma AsciiClean(t: Text)
    requires forall i | 0 <= i < |t| :: Harmless(t[i]) && t[i] < 0x80
    ensures CleanPiece(t)
  {
  }

  lemma HexHarmless(d: int)
    requires 0 <= d < 16
    ensures Harmless(HexDigit(d)) && HexDigit(d) < 0x80
  {
  }

  lemma UnicodeClean(cp: int)
    requires 0 <= cp < 0x1_0000
    ensures CleanPiece(UnicodeEscape(cp))
  {
    HexHarmless(cp / 0x1000);
    HexHarmless(cp / 0x100 % 16);
    HexHarmless(cp / 16 % 16);
    HexHarmless(cp % 16);
    hide HexDigit;
    AsciiClean(UnicodeEscape(cp));
  }

  lemma AsciiEscapeClean(b: Byte)
    requires b < 0x80
    ensures CleanPiece(EscapeAscii(b))
  {
    hide UnicodeEscape;
    if EscapeAscii(b) == UnicodeEscape(b as int) {
      UnicodeClean(b as int);
    } else {
      AsciiClean(EscapeAscii(b));
    }
  }

  /** A whole rune begins with a lead byte and goes on with continuation bytes. */
  lemma RuneBytes(s: Text)
    requires s != [] && s[0] >= 0x80 && RuneLen(s) > 0
    ensures RuneLen(s) >= 2 && s[0] >= 0xC2 && forall i | 0 < i < RuneLen(s) :: IsCont(s[i])
  {
  }

  lemma RuneClean(s: Text)
    requires s != [] && s[0] >= 0x80 && RuneLen(s) > 0 && !SeparatorAt(s[..RuneLen(s)], 0)
    ensures CleanPiece(s[..RuneLen(s)])
  {
    RuneBytes(s);
    hide RuneLen;
  }

  lemma OneClean(s: Text)
    requires s != []
    ensures CleanPiece(EscapeOne(s))
  {
    if s[0] < 0x80 {
      AsciiEscapeClean(s[0]);
    } else {
      UnicodeClean(0xFFFD);
      UnicodeClean(0x2028);
      UnicodeClean(0x2029);
      hide RuneLen, UnicodeEscape, CleanPiece;
      if EscapeOne(s) == s[..RuneLen(s)] && RuneLen(s) > 0 {
        assert !SeparatorAt(s[..RuneLen(s)], 0);
        RuneClean(s);
      }
    }
  }

  lemma {:induction false} EscapeClean(s: Text)
    ensures CleanPiece(Escape(s))
    decreases |s|
  {
    hide EscapeOne, Step, CleanPiece;
    if s == [] {
      NothingClean();
    } else {
      OneClean(s);
      EscapeClean(s[Step(s)..]);
      CleanConcat(EscapeOne(s), Escape(s[Step(s)..]));
    }
  }

  lemma NothingClean()
    ensures CleanPiece([])
  {
  }

  lemma QuotedClean(s: Text)
    ensures CleanPiece(Quoted(s))
  {
    EscapeClean(s);
    AsciiClean([QUOTE]);
    hide Escape, CleanPiece;
    CleanConcat([QUOTE], Escape(s));
    CleanConcat([QUOTE] + Escape(s), [QUOTE]);
  }

  lemma NumberClean(literal: Text)
    requires IsNumber(literal)
    ensures CleanPiece(literal)
  {
    AsciiClean(literal);
  }

  /** Whatever value is printed, no byte of the text is a control character, a less-than or greater-than
      sign or an ampersand, and neither line nor paragraph separator occurs in it. */
  lemma {:induction false} PrintClean(v: Json)
    requires WellFormed(v)
    ensures Clean(Print(v)) && CleanPiece(Print(v))
    decreases v, 1, 0
  {
    hide IsNumber, ValidUtf8, PrintItems, PrintMembers, SortedKeys, Quoted, CleanPiece;
    assert CleanPiece(Print(v)) by {
      match v
      case Null => AsciiClean(NULL);
      case Bool(b) =>
        AsciiClean(TRUE);
        AsciiClean(FALSE);
      case Number(literal) => NumberClean(literal);
      case Str(s) => QuotedClean(s);
      case Arr(items) =>
        ItemsClean(v, 0);
        AsciiClean([OPEN_ARRAY]);
        CleanConcat([OPEN_ARRAY], PrintItems(v, 0));
      case Obj(members) =>
        SortedKeysAreSorted(members.Keys);
        MembersClean(v, SortedKeys(members.Keys), 0);
        AsciiClean([OPEN_OBJECT]);
        CleanConcat([OPEN_OBJECT], PrintMembers(v, SortedKeys(members.Keys), 0));
    }
    PieceIsClean(Print(v));
  }

  lemma PieceIsClean(t: Text)
    requires CleanPiece(t)
    ensures Clean(t)
  {
  }

  lemma CleanThree(a: Text, b: Text, c: Text)
    requires CleanPiece(a) && CleanPiece(b) && CleanPiece(c)
    ensures CleanPiece(a + b + c)
  {
    hide CleanPiece;
    CleanConcat(a, b);
    CleanConcat(a + b, c);
  }

  lemma {:induction false} ItemsClean(v: Json, i: nat)
    requires v.Arr? && WellFormed(v) && i <= |v.items|
    ensures CleanPiece(PrintItems(v, i))
    decreases v, 0, |v.items| - i
  {
    assert i < |v.items| ==> WellFormed(v.items[i]);
    hide Print, CleanPiece, WellFormed;
    NothingClean();
    AsciiClean([COMMA]);
    AsciiClean([CLOSE_ARRAY]);
    if i < |v.items| {
      PrintClean(v.items[i]);
      ItemsClean(v, i + 1);
      CleanThree(if i > 0 then [COMMA] else [], Print(v.items[i]), PrintItems(v, i + 1));
    }
  }

  lemma {:induction false} MembersClean(v: Json, ks: seq<Text>, i: nat)
    requires v.Obj? && WellFormed(v) && i <= |ks| && forall k | k in ks :: k in v.members
    ensures CleanPiece(PrintMembers(v, ks, i))
    decreases v, 0, |ks| - i
  {
    assert i < |ks| ==> WellFormed(v.members[ks[i]]);
    hide Print, CleanPiece, WellFormed, Quoted;
    NothingClean();
    AsciiClean([COMMA]);
    AsciiClean([COLON]);
    AsciiClean([CLOSE_OBJECT]);
    if i < |ks| {
      var k, comma := ks[i], if i > 0 then [COMMA] else [];
      QuotedClean(k);
      PrintClean(v.members[k]);
      MembersClean(v, ks, i + 1);
      CleanThree(comma, Quoted(k), [COLON]);
      CleanThree(comma + Quoted(k) + [COLON], Print(v.members[k]), PrintMembers(v, ks, i + 1));
    }
  }

  // ------------------------------------------------------------------ strings written as they are

  /** Free of everything that is escaped. */
  predicate PlainBytes(t: Text) { Clean(t) && forall i | 0 <= i < |t| :: t[i] != 0x22 && t[i] != 0x5C }

  lemma PlainSplit(s: Text, n: nat)
    requires n <= |s| && (s != [] ==> !IsCont(s[0])) && (n < |s| ==> !IsCont(s[n]))
    ensures PlainBytes(s) <==> PlainBytes(s[..n]) && PlainBytes(s[n..])
  {
    var head, tail := s[..n], s[n..];
    assert s == head + tail;
    if PlainBytes(s) {
      forall i | 0 <= i < |head|
        ensures !SeparatorAt(head, i) && Harmless(head[i]) && head[i] != 0x22 && head[i] != 0x5C
      {
        assert !SeparatorAt(s, i) && s[i] == head[i];
      }
      forall i | 0 <= i < |tail|
        ensures !SeparatorAt(tail, i) && Harmless(tail[i]) && tail[i] != 0x22 && tail[i] != 0x5C
      {
        assert !SeparatorAt(s, n + i) && s[n + i] == tail[i];
      }
    }
    if PlainBytes(head) && PlainBytes(tail) {
      CleanConcat(head, tail);
    }
  }

  /** A rune, or a bad byte, is never written shorter than it is, and as it is exactly when plain. */
  lemma HeadRaw(s: Text)
    requires s != []
    ensures |EscapeOne(s)| >= Step(s)
    ensures EscapeOne(s) == s[..Step(s)] <==> |EscapeOne(s)| == Step(s)
    ensures |EscapeOne(s)| == Step(s) <==> RuneLen(s) > 0 && PlainBytes(s[..Step(s)])
  {
    if s[0] < 0x80 {
      assert Step(s) == 1 && s[..1] == [s[0]];
      hide UnicodeEscape;
    } else if RuneLen(s) > 0 {
      RuneBytes(s);
      hide RuneLen, UnicodeEscape;
      var rune := s[..Step(s)];
      assert SeparatorAt(rune, 0) <==> EscapeOne(s) != rune;
      if EscapeOne(s) == rune {
        RuneClean(s);
      }
    }
  }

  /** A string is written as it is exactly when it is well-formed, without controls, quotes, backslashes,
      HTML characters and separators; otherwise it gets longer. */
  lemma {:induction false} RawExactlyWhen(s: Text)
    ensures Escape(s) == s <==> ValidUtf8(s) && PlainBytes(s)
    ensures |Escape(s)| >= |s| && (|Escape(s)| == |s| ==> Escape(s) == s)
    decreases |s|
  {
    hide EscapeOne, RuneLen, PlainBytes;
    if s == [] {
      NothingPlain();
    } else {
      var n := Step(s);
      var more := s[n..];
      HeadRaw(s);
      RawExactlyWhen(more);
      assert s == s[..n] + more;
      LeadsRune(s);
      LeadsRune(more);
      if RuneLen(s) > 0 && (more != [] ==> !IsCont(more[0])) {
        PlainSplit(s, n);
      }
      if Escape(s) == s {
        assert |EscapeOne(s)| == n && |Escape(more)| == |more|;
      }
    }
  }

  lemma NothingPlain()
    ensures PlainBytes([])
  {
  }

  lemma LeadsRune(s: Text)
    ensures s != [] && RuneLen(s) > 0 ==> !IsCont(s[0])
  {
  }

  // ------------------------------------------------------------------ escapes

  function LowerHex(d: int): Byte
    requires 0 <= d < 16
  {
    Ascii("0123456789abcdef")[d]
  }

  lemma LowerCaseHex(d: int)
    requires 0 <= d < 16
    ensures HexDigit(d) == LowerHex(d)
  {
  }

  /** The short forms. */
  lemma ShortEscapes(b: Byte)
    requires b in {0x22, 0x5C, 0x08, 0x0C, 0x0A, 0x0D, 0x09}
    ensures EscapeAscii(b) == match b
                              case 0x22 => Ascii("\\\"")
                              case 0x5C => Ascii("\\\\")
                              case 0x08 => Ascii("\\b")
                              case 0x0C => Ascii("\\f")
                              case 0x0A => Ascii("\\n")
                              case 0x0D => Ascii("\\r")
                              case _ => Ascii("\\t")
  {
  }

  /** The other controls, the HTML characters, bad bytes and the two separators, in lower-case digits. */
  lemma HexEscapes(b: Byte)
    requires b in {0x26, 0x3C, 0x3E} || (b < 0x20 && b !in {0x08, 0x09, 0x0A, 0x0C, 0x0D})
    ensures EscapeAscii(b) == Ascii("\\u00") + [LowerHex(b as int / 16), LowerHex(b as int % 16)]
  {
    assert EscapeAscii(b) == UnicodeEscape(b as int);
    hide EscapeAscii, UnicodeEscape, LowerHex, Ascii;
    SmallEscape(b as int);
  }

  lemma SmallEscape(cp: int)
    requires 0 <= cp < 0x100
    ensures UnicodeEscape(cp) == Ascii("\\u00") + [LowerHex(cp / 16), LowerHex(cp % 16)]
  {
    LowerCaseHex(cp / 16);
    LowerCaseHex(cp % 16);
    LowerCaseHex(0);
    assert cp / 0x1000 == 0 && cp / 0x100 % 16 == 0 && cp / 16 % 16 == cp / 16;
    assert LowerHex(0) == 0x30;
    hide LowerHex, HexDigit;
  }

  lemma RuneEscapes(s: Text)
    requires s != []
    ensures s[0] < 0x80 ==> EscapeOne(s) == EscapeAscii(s[0])
    ensures RuneLen(s) == 0 ==> EscapeOne(s) == Ascii("\\ufffd")
    ensures SeparatorAt(s, 0) ==> EscapeOne(s) == if s[2] == 0xA8 then Ascii("\\u2028") else Ascii("\\u2029")
  {
    FixedEscapes();
    hide UnicodeEscape, Ascii;
  }

  lemma FixedEscapes()
    ensures UnicodeEscape(0xFFFD) == Ascii("\\ufffd")
    ensures UnicodeEscape(0x2028) == Ascii("\\u2028")
    ensures UnicodeEscape(0x2029) == Ascii("\\u2029")
  {
  }

  // ------------------------------------------------------------------ the layout

  /** The parts with the separator between them. */
  function Joined(parts: seq<Text>, sep: Text): Text {
    if parts == [] then []
    else if |parts| == 1 then parts[0]
    else parts[0] + sep + Joined(parts[1..], sep)
  }

  ghost function Printed(items: seq<Json>): (r: seq<Text>)
    ensures |r| == |items| && forall i | 0 <= i < |items| :: r[i] == Print(items[i])
  {
    seq(|items|, i requires 0 <= i < |items| => Print(items[i]))
  }

  ghost function PrintedMembers(members: map<Text, Json>, ks: seq<Text>): (r: seq<Text>)
    requires forall k | k in ks :: k in members
    ensures |r| == |ks|
    ensures forall i | 0 <= i < |ks| ::
              r[i] == Ascii("\"") + Escape(ks[i]) + Ascii("\"") + Ascii(":") + Print(members[ks[i]])
  {
    seq(|ks|, i requires 0 <= i < |ks| =>
      Ascii("\"") + Escape(ks[i]) + Ascii("\"") + Ascii(":") + Print(members[ks[i]]))
  }

  lemma Marks()
    ensures Ascii("null") == NULL && Ascii("true") == TRUE && Ascii("false") == FALSE
    ensures Ascii("[") == [OPEN_ARRAY] && Ascii("]") == [CLOSE_ARRAY]
    ensures Ascii("{") == [OPEN_OBJECT] && Ascii("}") == [CLOSE_OBJECT]
    ensures Ascii(",") == [COMMA] && Ascii(":") == [COLON] && Ascii("\"") == [QUOTE]
  {
  }

  /** What stands from part i on, up to the closing mark. */
  function JoinedFrom(parts: seq<Text>, i: nat, close: Text): Text
    requires i <= |parts|
  {
    (if 0 < i < |parts| then [COMMA] else []) + Joined(parts[i..], [COMMA]) + close
  }

  lemma JoinedStep(parts: seq<Text>, i: nat, close: Text)
    requires i < |parts|
    ensures JoinedFrom(parts, i, close) == (if i > 0 then [COMMA] else []) + parts[i] + JoinedFrom(parts, i + 1, close)
  {
    assert parts[i..][0] == parts[i] && parts[i..][1..] == parts[i + 1..];
    var rest := Joined(parts[i + 1..], [COMMA]);
    if i + 1 < |parts| {
      assert Joined(parts[i..], [COMMA]) == parts[i] + [COMMA] + rest;
    } else {
      assert Joined(parts[i..], [COMMA]) == parts[i] && rest == [];
    }
    hide Joined;
  }

  lemma {:induction false} ItemsJoined(v: Json, i: nat)
    requires v.Arr? && i <= |v.items|
    ensures PrintItems(v, i) == JoinedFrom(Printed(v.items), i, [CLOSE_ARRAY])
    decreases |v.items| - i
  {
    hide Print, JoinedFrom;
    var parts := Printed(v.items);
    if i < |v.items| {
      ItemsJoined(v, i + 1);
      JoinedStep(parts, i, [CLOSE_ARRAY]);
    } else {
      NothingJoined(parts, [CLOSE_ARRAY]);
    }
  }

  lemma NothingJoined(parts: seq<Text>, close: Text)
    ensures JoinedFrom(parts, |parts|, close) == close
  {
  }

  lemma AllJoined(parts: seq<Text>, close: Text)
    ensures JoinedFrom(parts, 0, close) == Joined(parts, [COMMA]) + close
  {
    assert parts[0..] == parts;
  }

  /** Literals, and the elements of an array in order, with single commas between them and nothing else. */
  lemma ValueLayout(v: Json)
    ensures v.Null? ==> Print(v) == Ascii("null")
    ensures v.Bool? ==> Print(v) == if v.b then Ascii("true") else Ascii("false")
    ensures v.Number? ==> Print(v) == v.literal
    ensures v.Str? ==> Print(v) == Ascii("\"") + Escape(v.s) + Ascii("\"")
    ensures v.Arr? ==> Print(v) == Ascii("[") + Joined(Printed(v.items), Ascii(",")) + Ascii("]")
  {
    Marks();
    hide Ascii;
    if v.Arr? {
      ItemsJoined(v, 0);
      AllJoined(Printed(v.items), [CLOSE_ARRAY]);
    }
  }

  lemma MemberPart(members: map<Text, Json>, ks: seq<Text>, i: nat)
    requires i < |ks| && forall k | k in ks :: k in members
    ensures PrintedMembers(members, ks)[i] == Quoted(ks[i]) + [COLON] + Print(members[ks[i]])
  {
    Marks();
    hide Print, Escape, Ascii;
  }

  lemma Fold(c: Text, q: Text, d: Text, x: Text, rest: Text)
    ensures c + q + d + x + rest == c + (q + d + x) + rest
  {
    assert c + q + d == c + (q + d);
    var qd := q + d;
    assert c + qd + x == c + (qd + x);
  }

  lemma {:induction false} MembersJoined(v: Json, ks: seq<Text>, i: nat)
    requires v.Obj? && i <= |ks| && forall k | k in ks :: k in v.members
    ensures PrintMembers(v, ks, i) == JoinedFrom(PrintedMembers(v.members, ks), i, [CLOSE_OBJECT])
    decreases |ks| - i
  {
    hide Print, Quoted, JoinedFrom, PrintedMembers;
    var parts := PrintedMembers(v.members, ks);
    if i < |ks| {
      MembersJoined(v, ks, i + 1);
      MemberPart(v.members, ks, i);
      JoinedStep(parts, i, [CLOSE_OBJECT]);
      Fold(if i > 0 then [COMMA] else [], Quoted(ks[i]), [COLON], Print(v.members[ks[i]]), PrintMembers(v, ks, i + 1));
    } else {
      NothingJoined(parts, [CLOSE_OBJECT]);
    }
  }

  /** The members of an object under its keys in bytewise order, each key once. */
  lemma ObjectLayout(v: Json, ks: seq<Text>)
    requires v.Obj? && (forall k :: k in ks <==> k in v.members)
    requires forall i, j | 0 <= i < j < |ks| :: Before(ks[i], ks[j])
    ensures Print(v) == Ascii("{") + Joined(PrintedMembers(v.members, ks), Ascii(",")) + Ascii("}")
  {
    SortedKeysAreSorted(v.members.Keys);
    KeysOnce(ks);
    SortedUnique(ks, SortedKeys(v.members.Keys));
    assert Print(v) == [OPEN_OBJECT] + PrintMembers(v, ks, 0);
    hide Print, PrintMembers, SortedKeys, PrintedMembers, JoinedFrom, Ascii, Joined;
    Marks();
    MembersJoined(v, ks, 0);
    AllJoined(PrintedMembers(v.members, ks), [CLOSE_OBJECT]);
  }

  lemma KeysOnce(ks: seq<Text>)
    requires forall i, j | 0 <= i < j < |ks| :: Before(ks[i], ks[j])
    ensures KeysSorted(ks)
  {
  }

  predicate DiffersAt(a: Text, b: Text, n: int) {
    && 0 <= n < |b| && n <= |a| && (forall i | 0 <= i < n :: a[i] == b[i])
    && (n == |a| || a[n] < b[n])
  }

  lemma DiffersLater(a: Text, b: Text, n: nat)
    requires a != [] && b != [] && a[0] == b[0]
    ensures DiffersAt(a, b, n + 1) <==> DiffersAt(a[1..], b[1..], n)
    ensures !DiffersAt(a, b, 0)
  {
    if DiffersAt(a[1..], b[1..], n) {
      forall i | 0 <= i < n + 1 ensures a[i] == b[i] {
        assert i > 0 ==> a[1..][i - 1] == b[1..][i - 1];
      }
    }
  }

  lemma DiffersFirst(a: Text, b: Text, n: int)
    requires DiffersAt(a, b, n) && (a == [] || b == [] || a[0] != b[0])
    ensures n == 0
  {
  }

  /** The order of the keys: by the first byte in which two differ, and a proper prefix first. */
  lemma {:induction false} BeforeMeans(a: Text, b: Text)
    ensures Before(a, b) <==> exists n :: DiffersAt(a, b, n)
    decreases |a|
  {
    if a != [] && b != [] && a[0] == b[0] {
      BeforeMeans(a[1..], b[1..]);
      if n :| DiffersAt(a[1..], b[1..], n) {
        DiffersLater(a, b, n);
        assert DiffersAt(a, b, n + 1);
      }
      if n :| DiffersAt(a, b, n) {
        DiffersLater(a, b, if n == 0 then 0 else n - 1);
      }
    } else if Before(a, b) {
      assert DiffersAt(a, b, 0);
    } else {
      forall n | DiffersAt(a, b, n) ensures n == 0 {
        DiffersFirst(a, b, n);
      }
    }
  }
}
