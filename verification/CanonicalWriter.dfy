/** The encoder as it runs: bytes appended to a buffer, the keys of an object collected in
    whatever order the map yields them and sorted in place. */
module CanonicalWriter {
  import opened Basics
  import opened JsonText
  import opened Canonical

  lemma Assoc<T>(a: seq<T>, b: seq<T>, c: seq<T>)
    ensures a + b + c == a + (b + c)
  {
  }

  lemma {:induction false} InsertAt(sorted: seq<Text>, k: Text, j: nat)
    requires j <= |sorted| && (forall m | j <= m < |sorted| :: Before(k, sorted[m]))
    requires j > 0 ==> !Before(k, sorted[j - 1])
    ensures InsertKey(sorted, k) == sorted[..j] + [k] + sorted[j..]
    decreases |sorted|
  {
    hide Before;
    if j < |sorted| {
      var n := |sorted| - 1;
      var front := sorted[..n];
      assert InsertKey(sorted, k) == InsertKey(front, k) + [sorted[n]];
      hide InsertKey;
      InsertAt(front, k, j);
      assert sorted[..j] == front[..j] && sorted[j..] == front[j..] + [sorted[n]];
      var low := front[..j] + [k];
      Assoc(low, front[j..], [sorted[n]]);
    } else {
      assert sorted[..j] == sorted && sorted[j..] == [];
      assert InsertKey(sorted, k) == sorted + [k];
      hide InsertKey;
      assert sorted + [k] + [] == sorted + [k];
    }
  }

  lemma Spliced<T>(s: seq<T>, k: T, j: nat, r: seq<T>)
    requires j <= |s| && |r| == |s| + 1 && r[j] == k
    requires (forall m | 0 <= m < j :: r[m] == s[m]) && (forall m | j < m < |r| :: r[m] == s[m - 1])
    ensures r == s[..j] + [k] + s[j..]
  {
    assert r[..j] == s[..j];
    assert r[j + 1..] == s[j..];
    assert r == r[..j] + [r[j]] + r[j + 1..];
  }

  /** One insertion: the element at i sinks into the sorted prefix before it. */
  method Sink(a: array<Text>, i: nat)
    requires i < a.Length
    modifies a
    ensures a[..i + 1] == InsertKey(old(a[..i]), old(a[i]))
    ensures forall m | i < m < a.Length :: a[m] == old(a[m])
  {
    hide Before, InsertKey;
    ghost var sorted := a[..i];
    var k := a[i];
    var j := i;
    while j > 0 && Before(k, a[j - 1])
      invariant 0 <= j <= i
      invariant forall m | 0 <= m < j :: a[m] == sorted[m]
      invariant forall m | j < m <= i :: a[m] == sorted[m - 1]
      invariant forall m | j <= m < i :: Before(k, sorted[m])
      invariant forall m | i < m < a.Length :: a[m] == old(a[m])
    {
      a[j] := a[j - 1];
      j := j - 1;
    }
    a[j] := k;
    InsertAt(sorted, k, j);
    Spliced(sorted, k, j, a[..i + 1]);
  }

  lemma SortNext(was: seq<Text>, i: nat)
    requires i < |was|
    ensures SortKeys(was[..i + 1]) == InsertKey(SortKeys(was[..i]), was[i])
  {
    assert was[..i + 1][..i] == was[..i];
  }

  /** In-place insertion sort of a key slice. */
  method SortStrings(a: array<Text>)
    modifies a
    ensures a[..] == SortKeys(old(a[..]))
  {
    hide SortKeys, InsertKey;
    ghost var was := a[..];
    var i := 0;
    assert SortKeys(was[..0]) == [] by { NothingToSort(was[..0]); }
    while i < a.Length
      invariant 0 <= i <= a.Length
      invariant a[..i] == SortKeys(was[..i])
      invariant forall m | i <= m < a.Length :: a[m] == was[m]
    {
      SortNext(was, i);
      Sink(a, i);
      i := i + 1;
    }
    assert was[..a.Length] == was && a[..a.Length] == a[..];
  }

  lemma NothingToSort(ks: seq<Text>)
    requires ks == []
    ensures SortKeys(ks) == []
  {
  }

  /** The keys of a map in the order of iteration, which nothing fixes. */
  method Range(members: map<Text, Json>) returns (ks: seq<Text>)
    ensures Lists(ks, members.Keys)
  {
    ks := [];
    var rest := members.Keys;
    while rest != {}
      invariant Lists(ks, members.Keys - rest) && rest <= members.Keys
      decreases |rest|
    {
      var k :| k in rest;
      ks := ks + [k];
      rest := rest - {k};
    }
  }

  /** Whatever order the keys come in, sorting them gives the one printed order. */
  lemma SortedListing(ks: seq<Text>, keys: set<Text>)
    requires Lists(ks, keys)
    ensures SortKeys(ks) == SortedKeys(keys)
  {
    SortKeysSorts(ks);
    SortKeysElements(ks);
    SortedKeysAreSorted(keys);
    SortedUnique(SortKeys(ks), SortedKeys(keys));
  }

  /** The slice of an object's keys, sorted. */
  method KeysInOrder(members: map<Text, Json>) returns (keys: seq<Text>)
    ensures keys == SortedKeys(members.Keys)
  {
    var listed := Range(members);
    var a := new Text[|listed|](i requires 0 <= i < |listed| => listed[i]);
    assert a[..] == listed;
    SortStrings(a);
    keys := a[..];
    SortedListing(listed, members.Keys);
  }

  class Buffer {
    var bytes: Text

    constructor ()
      ensures bytes == []
    {
      bytes := [];
    }

    method Write(t: Text)
      modifies this
      ensures bytes == old(bytes) + t
    {
      bytes := bytes + t;
    }

    /** Appends exactly the canonical text of v, whatever order the maps are ranged over. */
    method WriteCanonical(v: Json)
      modifies this
      ensures bytes == old(bytes) + Print(v)
      decreases v, 2
    {
      match v
      case Null => Write(NULL);
      case Bool(b) => if b { Write(TRUE); } else { Write(FALSE); }
      case Number(literal) => Write(literal);
      case Str(s) => Write(Quoted(s));
      case Arr(items) => WriteArray(v);
      case Obj(members) => WriteObject(v);
    }

    method WriteArray(v: Json)
      requires v.Arr?
      modifies this
      ensures bytes == old(bytes) + Print(v)
      decreases v, 1
    {
      assert Print(v) == [OPEN_ARRAY] + PrintItems(v, 0) && PrintItems(v, |v.items|) == [CLOSE_ARRAY];
      hide Print, PrintItems;
      Write([OPEN_ARRAY]);
      var i := 0;
      TwoRight(old(bytes), [OPEN_ARRAY], PrintItems(v, 0));
      while i < |v.items|
        invariant 0 <= i <= |v.items|
        invariant bytes + PrintItems(v, i) == old(bytes) + Print(v)
      {
        ghost var was := bytes;
        if i > 0 {
          Write([COMMA]);
        }
        WriteCanonical(v.items[i]);
        ItemsUnroll(v, i, was, bytes);
        i := i + 1;
      }
      Write([CLOSE_ARRAY]);
    }

    method WriteObject(v: Json)
      requires v.Obj?
      modifies this
      ensures bytes == old(bytes) + Print(v)
      decreases v, 1
    {
      var keys := KeysInOrder(v.members);
      SortedKeysAreSorted(v.members.Keys);
      assert Print(v) == [OPEN_OBJECT] + PrintMembers(v, keys, 0) && PrintMembers(v, keys, |keys|) == [CLOSE_OBJECT];
      hide Quoted, SortedKeys, Print, PrintMembers, KeysSorted, Lists;
      Write([OPEN_OBJECT]);
      var i := 0;
      TwoRight(old(bytes), [OPEN_OBJECT], PrintMembers(v, keys, 0));
      while i < |keys|
        invariant 0 <= i <= |keys| && forall k | k in keys :: k in v.members
        invariant bytes + PrintMembers(v, keys, i) == old(bytes) + Print(v)
      {
        WriteMember(v, keys, i);
        i := i + 1;
      }
      Write([CLOSE_OBJECT]);
    }

    method WriteMember(v: Json, keys: seq<Text>, i: nat)
      requires v.Obj? && i < |keys| && forall k | k in keys :: k in v.members
      modifies this
      ensures bytes + PrintMembers(v, keys, i + 1) == old(bytes) + PrintMembers(v, keys, i)
      decreases v, 0
    {
      hide Quoted, Print, PrintMembers;
      if i > 0 {
        Write([COMMA]);
      }
      Write(Quoted(keys[i]));
      Write([COLON]);
      WriteCanonical(v.members[keys[i]]);
      assert old(bytes) + [] == old(bytes);
      MembersUnroll(v, keys, i, old(bytes), bytes);
    }
  }

  lemma ItemsUnroll(v: Json, i: nat, was: Text, now: Text)
    requires v.Arr? && i < |v.items|
    requires now == was + (if i > 0 then [COMMA] else []) + Print(v.items[i])
    ensures now + PrintItems(v, i + 1) == was + PrintItems(v, i)
  {
    var x, y, c := Print(v.items[i]), PrintItems(v, i + 1), if i > 0 then [COMMA] else [];
    assert PrintItems(v, i) == c + x + y;
    hide Print, PrintItems;
    ThreeRight(was, c, x, y);
  }

  lemma ThreeRight(a: Text, c: Text, x: Text, y: Text)
    ensures a + c + x + y == a + (c + x + y)
  {
    TwoRight(a, c, x);
    var z := c + x;
    TwoRight(a, z, y);
  }

  lemma MembersUnroll(v: Json, ks: seq<Text>, i: nat, was: Text, now: Text)
    requires v.Obj? && i < |ks| && forall k | k in ks :: k in v.members
    requires now == was + (if i > 0 then [COMMA] else []) + Quoted(ks[i]) + [COLON] + Print(v.members[ks[i]])
    ensures now + PrintMembers(v, ks, i + 1) == was + PrintMembers(v, ks, i)
  {
    var q, x, y, c := Quoted(ks[i]), Print(v.members[ks[i]]), PrintMembers(v, ks, i + 1), if i > 0 then [COMMA] else [];
    assert PrintMembers(v, ks, i) == c + q + [COLON] + x + y;
    hide Print, PrintMembers, Quoted;
    LeftFold(was, c, q, [COLON], x, y);
  }

  lemma LeftFold(a: Text, c: Text, q: Text, d: Text, x: Text, y: Text)
    ensures a + c + q + d + x + y == a + (c + q + d + x + y)
  {
    Regroup(a, c, q, d, x, y);
  }

  /** Canonicalize: a fresh buffer filled by the writer. */
  method Canonicalize(v: Json) returns (bytes: Text)
    ensures bytes == Print(v)
    ensures WellFormed(v) ==> Parse(bytes) == Some((v, []))
  {
    var buf := new Buffer();
    buf.WriteCanonical(v);
    bytes := buf.bytes;
    assert [] + Print(v) == Print(v);
    if WellFormed(v) {
      RoundTrip(v, []);
      assert Print(v) + [] == Print(v);
    }
  }
}
