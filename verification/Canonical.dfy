/** The canonical encoder: JSON values printed without whitespace and with bytewise sorted
    object keys, and the reader (sections 4 to 7 of RFC 8259) that undoes it. */
module Canonical {
  import opened Basics
  import opened JsonText

  /** A decoded JSON value. A number keeps the literal it was written with. */
  datatype Json =
    | Null
    | Bool(b: bool)
    | Number(literal: Text)
    | Str(s: Text)
    | Arr(items: seq<Json>)
    | Obj(members: map<Text, Json>)

  const NULL: Text := [0x6E, 0x75, 0x6C, 0x6C]
  const TRUE: Text := [0x74, 0x72, 0x75, 0x65]
  const FALSE: Text := [0x66, 0x61, 0x6C, 0x73, 0x65]
  const COMMA: Byte := 0x2C
  const COLON: Byte := 0x3A
  const OPEN_ARRAY: Byte := 0x5B
  const CLOSE_ARRAY: Byte := 0x5D
  const OPEN_OBJECT: Byte := 0x7B
  const CLOSE_OBJECT: Byte := 0x7D

  // ------------------------------------------------------------------ numbers

  predicate IsDigit(b: Byte) { 0x30 <= b <= 0x39 }

  predicate IsNumberByte(b: Byte) { IsDigit(b) || b in {0x2B, 0x2D, 0x2E, 0x45, 0x65} }

  /** How many leading digits. */
  function Digits(t: Text): (n: nat)
    ensures n <= |t|
  {
    if t != [] && IsDigit(t[0]) then 1 + Digits(t[1..]) else 0
  }

  /** What follows an optional fraction; None for a point without digits. */
  function AfterFraction(t: Text): Option<Text> {
    if t == [] || t[0] != 0x2E then Some(t)
    else if Digits(t[1..]) == 0 then None
    else Some(t[1..][Digits(t[1..])..])
  }

  predicate IsExponent(t: Text) {
    t == [] || (t[0] in {0x45, 0x65}
                && var u := if |t| > 1 && t[1] in {0x2B, 0x2D} then t[2..] else t[1..];
                   u != [] && Digits(u) == |u|)
  }

  /** The number grammar: minus, integer without leading zeros, fraction, exponent. */
  predicate IsNumber(t: Text) {
    && (forall i | 0 <= i < |t| :: IsNumberByte(t[i]))
    && var u := if t != [] && t[0] == 0x2D then t[1..] else t;
       u != [] && IsDigit(u[0])
       && var rest := AfterFraction(if u[0] == 0x30 then u[1..] else u[Digits(u)..]);
          rest.Some? && IsExponent(rest.value)
  }

  /** The longest prefix that could belong to a number. */
  function NumberLen(t: Text): (n: nat)
    ensures n <= |t| && (forall i | 0 <= i < n :: IsNumberByte(t[i])) && (n < |t| ==> !IsNumberByte(t[n]))
  {
    if t != [] && IsNumberByte(t[0]) then 1 + NumberLen(t[1..]) else 0
  }

  // ------------------------------------------------------------------ key order

  function ByteRank(): Byte -> int { (x: Byte) => x as int }

  /** Bytewise lexicographic order, a proper prefix first. */
  predicate Before(a: Text, b: Text) { LexBefore(ByteRank(), a, b) }

  predicate KeysSorted(ks: seq<Text>) { forall i, j | 0 <= i < j < |ks| :: Before(ks[i], ks[j]) }

  function InsertKey(ks: seq<Text>, k: Text): seq<Text> {
    if ks == [] then [k]
    else
      var n := |ks| - 1;
      if Before(k, ks[n]) then InsertKey(ks[..n], k) + [ks[n]] else ks + [k]
  }

  function SortKeys(ks: seq<Text>): seq<Text> {
    if ks == [] then [] else InsertKey(SortKeys(ks[..|ks| - 1]), ks[|ks| - 1])
  }

  lemma {:induction false} InsertKeyElements(ks: seq<Text>, k: Text)
    ensures forall x :: x in InsertKey(ks, k) <==> x == k || x in ks
    decreases |ks|
  {
    hide Before;
    if ks != [] {
      var n := |ks| - 1;
      InsertKeyElements(ks[..n], k);
      assert ks == ks[..n] + [ks[n]];
    }
  }

  lemma {:induction false} SortKeysElements(ks: seq<Text>)
    ensures forall x :: x in SortKeys(ks) <==> x in ks
    decreases |ks|
  {
    hide InsertKey;
    if ks != [] {
      var n := |ks| - 1;
      SortKeysElements(ks[..n]);
      InsertKeyElements(SortKeys(ks[..n]), ks[n]);
      assert ks == ks[..n] + [ks[n]];
    }
  }

  /** The keys in some order: what ranging over a map yields. */
  ghost predicate Lists(ks: seq<Text>, keys: set<Text>) {
    (forall k :: k in ks <==> k in keys) && forall i, j | 0 <= i < j < |ks| :: ks[i] != ks[j]
  }

  ghost function SomeListing(keys: set<Text>): (ks: seq<Text>)
    ensures Lists(ks, keys)
  {
    if keys == {} then []
    else
      var k :| k in keys;
      SomeListing(keys - {k}) + [k]
  }

  ghost function SortedKeys(keys: set<Text>): seq<Text> { SortKeys(SomeListing(keys)) }

  lemma {:induction false} InsertKeySorts(ks: seq<Text>, k: Text)
    requires KeysSorted(ks) && k !in ks
    ensures KeysSorted(InsertKey(ks, k))
    decreases |ks|
  {
    if ks != [] {
      var n := |ks| - 1;
      LexTotal(ByteRank(), k, ks[n]);
      if Before(k, ks[n]) {
        InsertKeySorts(ks[..n], k);
        InsertKeyElements(ks[..n], k);
        var low := InsertKey(ks[..n], k);
        forall i | 0 <= i < |low| ensures Before(low[i], ks[n]) {
          assert low[i] in low;
          assert low[i] in ks[..n] || low[i] == k;
        }
      } else {
        forall i | 0 <= i < |ks| ensures Before(ks[i], k) {
          if i < n {
            LexTransitive(ByteRank(), ks[i], ks[n], k);
          }
        }
      }
    }
  }

  lemma {:induction false} SortKeysSorts(ks: seq<Text>)
    requires forall i, j | 0 <= i < j < |ks| :: ks[i] != ks[j]
    ensures KeysSorted(SortKeys(ks))
    decreases |ks|
  {
    hide InsertKey, Before;
    if ks != [] {
      var n := |ks| - 1;
      SortKeysSorts(ks[..n]);
      SortKeysElements(ks[..n]);
      InsertKeySorts(SortKeys(ks[..n]), ks[n]);
    }
  }

  /** The printed key sequence: strictly increasing bytewise, and exactly the object's keys. */
  lemma SortedKeysAreSorted(keys: set<Text>)
    ensures KeysSorted(SortedKeys(keys)) && Lists(SortedKeys(keys), keys)
  {
    var ks := SomeListing(keys);
    SortKeysSorts(ks);
    SortKeysElements(ks);
    SortedNoRepeats(SortKeys(ks));
  }

  lemma SortedNoRepeats(ks: seq<Text>)
    requires KeysSorted(ks)
    ensures forall i, j | 0 <= i < j < |ks| :: ks[i] != ks[j]
  {
    forall i, j | 0 <= i < j < |ks| ensures ks[i] != ks[j] {
      LexIrreflexive(ByteRank(), ks[i]);
    }
  }

  /** A sorted listing of a set is unique, so the order in which a map is ranged over is gone. */
  lemma {:induction false} SortedUnique(xs: seq<Text>, ys: seq<Text>)
    requires KeysSorted(xs) && KeysSorted(ys) && forall k :: k in xs <==> k in ys
    ensures xs == ys
    decreases |xs|
  {
    BothEmpty(xs, ys);
    if xs != [] {
      FirstIsLeast(xs, ys);
      SortedNoRepeats(xs);
      SortedNoRepeats(ys);
      forall k ensures k in xs[1..] <==> k in ys[1..] {
        TailMembers(xs, k);
        TailMembers(ys, k);
      }
      SortedUnique(xs[1..], ys[1..]);
      assert xs == [xs[0]] + xs[1..] && ys == [ys[0]] + ys[1..];
    }
  }

  lemma BothEmpty(xs: seq<Text>, ys: seq<Text>)
    requires forall k :: k in xs <==> k in ys
    ensures xs == [] <==> ys == []
  {
    assert |xs| > 0 ==> xs[0] in xs;
    assert |ys| > 0 ==> ys[0] in ys;
  }

  lemma FirstIsLeast(xs: seq<Text>, ys: seq<Text>)
    requires KeysSorted(xs) && KeysSorted(ys) && xs != [] && ys != [] && forall k :: k in xs <==> k in ys
    ensures xs[0] == ys[0]
  {
    assert xs[0] in ys && ys[0] in xs;
    var i :| 0 <= i < |ys| && ys[i] == xs[0];
    var j :| 0 <= j < |xs| && xs[j] == ys[0];
    if i > 0 && j > 0 {
      LexTotal(ByteRank(), xs[0], ys[0]);
    }
  }

  lemma TailMembers(xs: seq<Text>, k: Text)
    requires xs != [] && forall i, j | 0 <= i < j < |xs| :: xs[i] != xs[j]
    ensures k in xs[1..] <==> k in xs && k != xs[0]
  {
    if k in xs && k != xs[0] {
      var i :| 0 <= i < |xs| && xs[i] == k;
      assert xs[1..][i - 1] == k;
    }
  }

  // ------------------------------------------------------------------ printing

  ghost function Print(v: Json): Text
    decreases v, 1, 0
  {
    match v
    case Null => NULL
    case Bool(b) => if b then TRUE else FALSE
    case Number(literal) => literal
    case Str(s) => Quoted(s)
    case Arr(items) => [OPEN_ARRAY] + PrintItems(v, 0)
    case Obj(members) =>
      SortedKeysAreSorted(members.Keys);
      [OPEN_OBJECT] + PrintMembers(v, SortedKeys(members.Keys), 0)
  }

  /** The elements from i on, with their commas and the closing bracket. */
  ghost function PrintItems(v: Json, i: nat): Text
    requires v.Arr? && i <= |v.items|
    decreases v, 0, |v.items| - i
  {
    if i == |v.items| then [CLOSE_ARRAY]
    else (if i > 0 then [COMMA] else []) + Print(v.items[i]) + PrintItems(v, i + 1)
  }

  /** The members from the i-th key on, with their commas and the closing brace. */
  ghost function PrintMembers(v: Json, ks: seq<Text>, i: nat): Text
    requires v.Obj? && i <= |ks| && forall k | k in ks :: k in v.members
    decreases v, 0, |ks| - i
  {
    if i == |ks| then [CLOSE_OBJECT]
    else
      (if i > 0 then [COMMA] else []) + Quoted(ks[i]) + [COLON] + Print(v.members[ks[i]]) + PrintMembers(v, ks, i + 1)
  }

  /** What the decoder hands over: well-formed strings and number literals throughout. */
  ghost predicate WellFormed(v: Json) {
    match v
    case Number(literal) => IsNumber(literal)
    case Str(s) => ValidUtf8(s)
    case Arr(items) => forall i | 0 <= i < |items| :: WellFormed(items[i])
    case Obj(members) => forall k | k in members :: ValidUtf8(k) && WellFormed(members[k])
    case _ => true
  }

  // ------------------------------------------------------------------ reading

  /** The rest of t after the word w. */
  function After(t: Text, w: Text): Option<Text> { if w <= t then Some(t[|w|..]) else None }

  function ParseWord(t: Text, w: Text, v: Json): (r: Option<(Json, Text)>)
    requires w != []
    ensures r.Some? ==> |r.value.1| < |t|
  {
    var rest :- After(t, w);
    Some((v, rest))
  }

  /** One value at the head of t and what follows it. */
  function Parse(t: Text): (r: Option<(Json, Text)>)
    ensures r.Some? ==> |r.value.1| < |t|
    decreases |t|, 0
  {
    if t == [] then None
    else if t[0] == NULL[0] then ParseWord(t, NULL, Null)
    else if t[0] == TRUE[0] then ParseWord(t, TRUE, Bool(true))
    else if t[0] == FALSE[0] then ParseWord(t, FALSE, Bool(false))
    else if t[0] == QUOTE then
      var s :- ReadChars(t[1..]);
      Some((Str(s.0), s.1))
    else if t[0] == OPEN_ARRAY then
      if |t| > 1 && t[1] == CLOSE_ARRAY then Some((Arr([]), t[2..]))
      else
        var xs :- ParseItems(t[1..]);
        Some((Arr(xs.0), xs.1))
    else if t[0] == OPEN_OBJECT then
      if |t| > 1 && t[1] == CLOSE_OBJECT then Some((Obj(map[]), t[2..]))
      else
        var ms :- ParseMembers(t[1..]);
        Some((Obj(ms.0), ms.1))
    else
      var n := NumberLen(t);
      if IsNumber(t[..n]) then Some((Number(t[..n]), t[n..])) else None
  }

  function ParseItems(t: Text): (r: Option<(seq<Json>, Text)>)
    ensures r.Some? ==> |r.value.1| < |t|
    decreases |t|, 1
  {
    var x :- Parse(t);
    if x.1 == [] then None
    else if x.1[0] == CLOSE_ARRAY then Some(([x.0], x.1[1..]))
    else if x.1[0] != COMMA then None
    else
      var xs :- ParseItems(x.1[1..]);
      Some(([x.0] + xs.0, xs.1))
  }

  /** Later members of the same name win. */
  function ParseMembers(t: Text): (r: Option<(map<Text, Json>, Text)>)
    ensures r.Some? ==> |r.value.1| < |t|
    decreases |t|, 1
  {
    if t == [] || t[0] != QUOTE then None
    else
      var k :- ReadChars(t[1..]);
      if k.1 == [] || k.1[0] != COLON then None
      else
        var x :- Parse(k.1[1..]);
        if x.1 == [] then None
        else if x.1[0] == CLOSE_OBJECT then Some((map[k.0 := x.0], x.1[1..]))
        else if x.1[0] != COMMA then None
        else
          var ms :- ParseMembers(x.1[1..]);
          Some((map[k.0 := x.0] + ms.0, ms.1))
  }

  // ------------------------------------------------------------------ the round trip

  predicate EndsNumber(rest: Text) { rest == [] || !IsNumberByte(rest[0]) }

  lemma {:induction false} NumberBack(lit: Text, rest: Text)
    requires (forall i | 0 <= i < |lit| :: IsNumberByte(lit[i])) && EndsNumber(rest)
    ensures NumberLen(lit + rest) == |lit|
    decreases |lit|
  {
    if lit == [] {
      assert lit + rest == rest;
    } else {
      assert (lit + rest)[1..] == lit[1..] + rest;
      NumberBack(lit[1..], rest);
    }
  }

  lemma NumberHead(lit: Text)
    requires IsNumber(lit)
    ensures lit != [] && (lit[0] == 0x2D || IsDigit(lit[0]))
  {
  }

  lemma StringValue(s: Text, rest: Text)
    requires ValidUtf8(s)
    ensures ReadChars((Quoted(s) + rest)[1..]) == Some((s, rest))
  {
    hide ReadChars, Escape, Repair, ValidUtf8;
    StringBack(s, rest);
    RepairIsIdentity(s);
    assert (Quoted(s) + rest)[1..] == Escape(s) + [QUOTE] + rest;
  }

  lemma Regroup(a: Text, q: Text, c: Text, x: Text, y: Text, rest: Text)
    ensures a + q + c + x + y + rest == a + (q + c + x + y + rest)
    ensures a + ([] + q + c + x + y) == a + q + c + x + y
  {
    assert [] + q == q;
    assert a + (q + c) == a + q + c;
    assert a + (q + c + x) == a + q + c + x;
    assert a + (q + c + x + y) == a + q + c + x + y;
    var z := q + c + x + y;
    assert a + z + rest == a + (z + rest);
  }

  lemma ArrText(v: Json, rest: Text)
    requires v.Arr?
    ensures v.items == [] ==> Print(v) + rest == [OPEN_ARRAY, CLOSE_ARRAY] + rest
    ensures v.items != [] ==> Print(v) + rest == [OPEN_ARRAY] + (Print(v.items[0]) + PrintItems(v, 1) + rest)
  {
    assert Print(v) == [OPEN_ARRAY] + PrintItems(v, 0);
    hide Print;
    if v.items != [] {
      assert PrintItems(v, 0) == [] + Print(v.items[0]) + PrintItems(v, 1);
      hide PrintItems;
      var x, y := Print(v.items[0]), PrintItems(v, 1);
      assert [OPEN_ARRAY] + ([] + x + y) + rest == [OPEN_ARRAY] + (x + y + rest);
    } else {
      assert PrintItems(v, 0) == [CLOSE_ARRAY];
    }
  }

  lemma ObjText(v: Json, ks: seq<Text>, rest: Text)
    requires v.Obj? && ks == SortedKeys(v.members.Keys) && forall k | k in ks :: k in v.members
    ensures ks == [] ==> Print(v) + rest == [OPEN_OBJECT, CLOSE_OBJECT] + rest
    ensures ks != [] ==>
              Print(v) + rest == [OPEN_OBJECT]
              + (Quoted(ks[0]) + [COLON] + Print(v.members[ks[0]]) + PrintMembers(v, ks, 1) + rest)
  {
    assert Print(v) == [OPEN_OBJECT] + PrintMembers(v, ks, 0);
    hide Print;
    if ks != [] {
      assert PrintMembers(v, ks, 0) == [] + Quoted(ks[0]) + [COLON] + Print(v.members[ks[0]]) + PrintMembers(v, ks, 1);
      hide PrintMembers, Quoted;
      var q, x, y := Quoted(ks[0]), Print(v.members[ks[0]]), PrintMembers(v, ks, 1);
      Regroup([OPEN_OBJECT], q, [COLON], x, y, rest);
    } else {
      assert PrintMembers(v, ks, 0) == [CLOSE_OBJECT];
    }
  }

  lemma WordBack(w: Text, rest: Text)
    ensures After(w + rest, w) == Some(rest)
  {
  }

  lemma ScalarBack(v: Json, rest: Text)
    requires v.Null? || v.Bool?
    ensures Parse(Print(v) + rest) == Some((v, rest))
  {
    hide After;
    WordBack(NULL, rest);
    WordBack(TRUE, rest);
    WordBack(FALSE, rest);
  }

  lemma LiteralBack(lit: Text, rest: Text)
    requires IsNumber(lit) && EndsNumber(rest)
    ensures Parse(lit + rest) == Some((Number(lit), rest))
  {
    NumberBack(lit, rest);
    NumberHead(lit);
    hide IsNumber, NumberLen;
    assert (lit + rest)[0] == lit[0] && (lit + rest)[..|lit|] == lit && (lit + rest)[|lit|..] == rest;
  }

  lemma StrBack(s: Text, rest: Text)
    requires ValidUtf8(s)
    ensures Parse(Quoted(s) + rest) == Some((Str(s), rest))
  {
    StringValue(s, rest);
    hide ReadChars, Escape, ValidUtf8;
    assert (Quoted(s) + rest)[0] == QUOTE;
  }

  /** The reader on a bracket and a non-empty body. */
  lemma OpenArray(body: Text, items: seq<Json>, rest: Text)
    requires body != [] && body[0] != CLOSE_ARRAY && ParseItems(body) == Some((items, rest))
    ensures Parse([OPEN_ARRAY] + body) == Some((Arr(items), rest))
  {
    hide ParseItems, ParseMembers, ReadChars, ParseWord, NumberLen, IsNumber;
    assert ([OPEN_ARRAY] + body)[1..] == body;
  }

  lemma OpenObject(body: Text, members: map<Text, Json>, rest: Text)
    requires body != [] && body[0] != CLOSE_OBJECT && ParseMembers(body) == Some((members, rest))
    ensures Parse([OPEN_OBJECT] + body) == Some((Obj(members), rest))
  {
    hide ParseItems, ParseMembers, ReadChars, ParseWord, NumberLen, IsNumber;
    assert ([OPEN_OBJECT] + body)[1..] == body;
  }

  lemma EmptyBack(rest: Text)
    ensures Parse([OPEN_ARRAY, CLOSE_ARRAY] + rest) == Some((Arr([]), rest))
    ensures Parse([OPEN_OBJECT, CLOSE_OBJECT] + rest) == Some((Obj(map[]), rest))
  {
    assert ([OPEN_ARRAY, CLOSE_ARRAY] + rest)[2..] == rest;
    assert ([OPEN_OBJECT, CLOSE_OBJECT] + rest)[2..] == rest;
  }

  /** Reading what was printed returns the value and leaves what followed it. */
  lemma {:induction false} RoundTrip(v: Json, rest: Text)
    requires WellFormed(v) && (v.Number? ==> EndsNumber(rest))
    ensures Parse(Print(v) + rest) == Some((v, rest))
    decreases v, 1, 0
  {
    hide Parse, IsNumber, ValidUtf8, PrintItems, PrintMembers, SortedKeys, EndsNumber;
    match v
    case Number(lit) => LiteralBack(lit, rest);
    case Str(s) => StrBack(s, rest);
    case Arr(items) =>
      ArrText(v, rest);
      if items == [] {
        EmptyBack(rest);
      } else {
        ItemsBack(v, 0, rest);
        ValueHead(items[0]);
        var body := Print(items[0]) + PrintItems(v, 1) + rest;
        assert items[0..] == items;
        assert body[0] == Print(items[0])[0];
        OpenArray(body, items, rest);
      }
    case Obj(members) =>
      SortedKeysAreSorted(members.Keys);
      var ks := SortedKeys(members.Keys);
      ObjText(v, ks, rest);
      if ks == [] {
        EmptyBack(rest);
        assert forall k :: k in members.Keys ==> k in ks;
        assert members == map[];
      } else {
        MembersBack(v, ks, 0, rest);
        AllKeys(members, ks);
        OpenObject(Quoted(ks[0]) + [COLON] + Print(members[ks[0]]) + PrintMembers(v, ks, 1) + rest, members, rest);
      }
    case _ => ScalarBack(v, rest);
  }

  lemma AllKeys(members: map<Text, Json>, ks: seq<Text>)
    requires Lists(ks, members.Keys)
    ensures Restricted(members, ks, 0) == members
  {
    assert ks[0..] == ks;
  }

  /** No value is printed with a closing bracket in front. */
  lemma ValueHead(v: Json)
    requires WellFormed(v)
    ensures Print(v) != [] && Print(v)[0] != CLOSE_ARRAY
  {
    if v.Number? {
      NumberHead(v.literal);
    }
  }

  /** What stands after an element: the closing bracket, or a comma and the next element. */
  lemma MoreItems(v: Json, i: nat, rest: Text)
    requires v.Arr? && 0 < i <= |v.items|
    ensures var more := PrintItems(v, i) + rest;
            && more != [] && more[0] == (if i == |v.items| then CLOSE_ARRAY else COMMA)
            && more[1..] == if i == |v.items| then rest else Print(v.items[i]) + PrintItems(v, i + 1) + rest
  {
    if i < |v.items| {
      assert PrintItems(v, i) == [COMMA] + Print(v.items[i]) + PrintItems(v, i + 1);
      hide Print, PrintItems;
      var x, y := Print(v.items[i]), PrintItems(v, i + 1);
      assert [COMMA] + x + y + rest == [COMMA] + (x + y + rest);
    }
  }

  lemma TwoRight(x: Text, y: Text, rest: Text)
    ensures x + y + rest == x + (y + rest)
  {
  }

  /** One turn of the reader's element loop. */
  lemma ItemsStep(t: Text, v: Json, more: Text)
    requires Parse(t) == Some((v, more)) && more != []
    ensures more[0] == CLOSE_ARRAY ==> ParseItems(t) == Some(([v], more[1..]))
    ensures more[0] == COMMA && ParseItems(more[1..]).Some? ==>
              ParseItems(t) == Some(([v] + ParseItems(more[1..]).value.0, ParseItems(more[1..]).value.1))
  {
    hide Parse;
  }

  lemma ItemsSplit(items: seq<Json>, i: nat)
    requires i < |items|
    ensures items[i..] == [items[i]] + items[i + 1..]
    ensures i + 1 == |items| ==> items[i..] == [items[i]]
  {
  }

  lemma {:induction false} ItemsBack(v: Json, i: nat, rest: Text)
    requires v.Arr? && WellFormed(v) && i < |v.items|
    ensures ParseItems(Print(v.items[i]) + PrintItems(v, i + 1) + rest) == Some((v.items[i..], rest))
    decreases v, 0, |v.items| - i
  {
    assert WellFormed(v.items[i]);
    hide Parse, Print, PrintItems, WellFormed, ParseItems;
    MoreItems(v, i + 1, rest);
    var x, more := Print(v.items[i]), PrintItems(v, i + 1) + rest;
    TwoRight(x, PrintItems(v, i + 1), rest);
    RoundTrip(v.items[i], more);
    ItemsStep(x + more, v.items[i], more);
    ItemsSplit(v.items, i);
    if i + 1 < |v.items| {
      ItemsBack(v, i + 1, rest);
    }
  }

  /** The part of an object under the keys from the i-th on. */
  function Restricted(members: map<Text, Json>, ks: seq<Text>, i: nat): map<Text, Json>
    requires i <= |ks|
  {
    map k | k in members && k in ks[i..] :: members[k]
  }

  lemma RestrictedStep(members: map<Text, Json>, ks: seq<Text>, i: nat)
    requires i < |ks| && ks[i] in members && forall i, j | 0 <= i < j < |ks| :: ks[i] != ks[j]
    ensures Restricted(members, ks, i) == map[ks[i] := members[ks[i]]] + Restricted(members, ks, i + 1)
    ensures i + 1 == |ks| ==> Restricted(members, ks, i) == map[ks[i] := members[ks[i]]]
  {
    assert ks[i..] == [ks[i]] + ks[i + 1..];
    assert ks[i] !in ks[i + 1..];
  }

  lemma MoreMembers(v: Json, ks: seq<Text>, i: nat, rest: Text)
    requires v.Obj? && 0 < i <= |ks| && forall k | k in ks :: k in v.members
    ensures var more := PrintMembers(v, ks, i) + rest;
            && more != [] && more[0] == (if i == |ks| then CLOSE_OBJECT else COMMA)
            && more[1..] == if i == |ks| then rest
                            else Quoted(ks[i]) + [COLON] + Print(v.members[ks[i]]) + PrintMembers(v, ks, i + 1) + rest
  {
    if i < |ks| {
      assert PrintMembers(v, ks, i) == [COMMA] + Quoted(ks[i]) + [COLON] + Print(v.members[ks[i]])
          + PrintMembers(v, ks, i + 1);
      hide Print, PrintMembers, Quoted;
      var q, x, y := Quoted(ks[i]), Print(v.members[ks[i]]), PrintMembers(v, ks, i + 1);
      Regroup([COMMA], q, [COLON], x, y, rest);
    }
  }

  lemma ToTheRight(q: Text, c: Text, x: Text, y: Text, rest: Text)
    ensures q + c + x + y + rest == q + (c + (x + (y + rest)))
  {
    var a, w := q + c, y + rest;
    assert a + x + y + rest == a + x + w;
    assert a + x + w == a + (x + w);
    var z := x + w;
    assert q + c + z == q + (c + z);
  }

  lemma MemberText(k: Text, x: Text, y: Text, rest: Text)
    requires ValidUtf8(k)
    ensures var t := Quoted(k) + [COLON] + x + y + rest;
            t != [] && t[0] == QUOTE && ReadChars(t[1..]) == Some((k, [COLON] + (x + (y + rest))))
  {
    StringValue(k, [COLON] + (x + (y + rest)));
    assert Quoted(k)[0] == QUOTE;
    hide ReadChars, ValidUtf8, Quoted;
    ToTheRight(Quoted(k), [COLON], x, y, rest);
  }

  /** One turn of the reader's member loop. */
  lemma MembersStep(t: Text, k: Text, u: Text, v: Json, more: Text)
    requires t != [] && t[0] == QUOTE && ReadChars(t[1..]) == Some((k, [COLON] + u))
    requires Parse(u) == Some((v, more)) && more != []
    ensures more[0] == CLOSE_OBJECT ==> ParseMembers(t) == Some((map[k := v], more[1..]))
    ensures more[0] == COMMA && ParseMembers(more[1..]).Some? ==>
              ParseMembers(t) == Some((map[k := v] + ParseMembers(more[1..]).value.0, ParseMembers(more[1..]).value.1))
  {
    hide Parse, ReadChars;
    assert ([COLON] + u)[1..] == u;
  }

  lemma {:induction false} MembersBack(v: Json, ks: seq<Text>, i: nat, rest: Text)
    requires v.Obj? && WellFormed(v) && i < |ks| && forall k | k in ks :: k in v.members
    requires forall i, j | 0 <= i < j < |ks| :: ks[i] != ks[j]
    ensures ParseMembers(Quoted(ks[i]) + [COLON] + Print(v.members[ks[i]]) + PrintMembers(v, ks, i + 1) + rest)
         == Some((Restricted(v.members, ks, i), rest))
    decreases v, 0, |ks| - i
  {
    var k := ks[i];
    assert WellFormed(v.members[k]) && ValidUtf8(k);
    hide Parse, Print, PrintMembers, WellFormed, ReadChars, Quoted, ValidUtf8, Restricted, ParseMembers;
    MoreMembers(v, ks, i + 1, rest);
    var x, y := Print(v.members[k]), PrintMembers(v, ks, i + 1);
    var more := y + rest;
    MemberText(k, x, y, rest);
    RoundTrip(v.members[k], more);
    MembersStep(Quoted(k) + [COLON] + x + y + rest, k, x + more, v.members[k], more);
    RestrictedStep(v.members, ks, i);
    if i + 1 < |ks| {
      MembersBack(v, ks, i + 1, rest);
    }
  }

  /** Different values never print the same: a signature over the bytes is one over the value. */
  lemma PrintInjective(v: Json, w: Json)
    requires WellFormed(v) && WellFormed(w) && Print(v) == Print(w)
    ensures v == w
  {
    RoundTrip(v, []);
    RoundTrip(w, []);
    assert Print(v) + [] == Print(w) + [];
  }

  /** No printed value is a proper prefix of another, numbers apart. */
  lemma PrintPrefixFree(v: Json, w: Json, rest: Text)
    requires WellFormed(v) && WellFormed(w) && Print(v) + rest == Print(w)
    requires v.Number? ==> EndsNumber(rest)
    ensures v == w && rest == []
  {
    RoundTrip(v, rest);
    RoundTrip(w, []);
    assert Print(w) + [] == Print(w);
  }

  // ------------------------------------------------------------------ what the reader returns

  lemma {:induction false} ParseWellFormed(t: Text)
    requires Parse(t).Some?
    ensures WellFormed(Parse(t).value.0)
    decreases |t|, 0
  {
    if t[0] == QUOTE {
      ReadValid(t[1..]);
    } else if t[0] == OPEN_ARRAY {
      if !(|t| > 1 && t[1] == CLOSE_ARRAY) {
        ItemsWellFormed(t[1..]);
      }
    } else if t[0] == OPEN_OBJECT {
      if !(|t| > 1 && t[1] == CLOSE_OBJECT) {
        MembersWellFormed(t[1..]);
      }
    }
  }

  lemma {:induction false} ItemsWellFormed(t: Text)
    requires ParseItems(t).Some?
    ensures forall i | 0 <= i < |ParseItems(t).value.0| :: WellFormed(ParseItems(t).value.0[i])
    decreases |t|, 1
  {
    hide Parse;
    ParseWellFormed(t);
    var x := Parse(t).value;
    if x.1[0] != CLOSE_ARRAY {
      ItemsWellFormed(x.1[1..]);
    }
  }

  lemma {:induction false} MembersWellFormed(t: Text)
    requires ParseMembers(t).Some?
    ensures forall k | k in ParseMembers(t).value.0 :: ValidUtf8(k) && WellFormed(ParseMembers(t).value.0[k])
    decreases |t|, 1
  {
    hide Parse, ReadChars;
    ReadValid(t[1..]);
    var k := ReadChars(t[1..]).value;
    ParseWellFormed(k.1[1..]);
    var x := Parse(k.1[1..]).value;
    if x.1[0] != CLOSE_OBJECT {
      MembersWellFormed(x.1[1..]);
    }
  }

  /** Canonicalizing any text the reader accepts, then reading and canonicalizing again, changes
      neither the value nor the bytes. */
  lemma CanonicalFixpoint(t: Text)
    requires Parse(t).Some?
    ensures var v := Parse(t).value.0;
            Parse(Print(v)) == Some((v, [])) && Print(Parse(Print(v)).value.0) == Print(v)
  {
    hide Parse, Print;
    var v := Parse(t).value.0;
    ParseWellFormed(t);
    RoundTrip(v, []);
    assert Print(v) + [] == Print(v);
  }
}
