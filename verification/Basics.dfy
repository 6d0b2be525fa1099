/** Option, sums over sequences and maps, and the few facts about them that the
    ledger proofs share. */
module Basics {

  datatype Option<+T> = None | Some(value: T) {
    predicate IsFailure() { None? }
    function PropagateFailure<U>(): Option<U> requires None? { None }
    function Extract(): T requires Some? { value }
  }

  function Min(x: int, y: int): int { if x <= y then x else y }

  function Max(x: int, y: int): int { if x <= y then y else x }

  /** The sum of f over the rows of a table. */
  ghost function Sum<T>(s: seq<T>, f: T -> int): int
  {
    if s == [] then 0 else Sum(s[..|s| - 1], f) + f(s[|s| - 1])
  }

  lemma SumPush<T>(s: seq<T>, x: T, f: T -> int)
    ensures Sum(s + [x], f) == Sum(s, f) + f(x)
  {
    assert (s + [x])[..|s|] == s;
  }

  lemma {:induction false} SumConcat<T>(s: seq<T>, t: seq<T>, f: T -> int)
    ensures Sum(s + t, f) == Sum(s, f) + Sum(t, f)
  {
    if t == [] {
      assert s + t == s;
    } else {
      var t0, x := t[..|t| - 1], t[|t| - 1];
      SumConcat(s, t0, f);
      SumPush(s + t0, x, f);
      assert s + t == (s + t0) + [x];
    }
  }

  lemma {:induction false} SumUpdate<T>(s: seq<T>, i: nat, x: T, f: T -> int)
    requires i < |s|
    ensures Sum(s[i := x], f) == Sum(s, f) - f(s[i]) + f(x)
  {
    var n := |s| - 1;
    if i == n {
      assert s[i := x][..n] == s[..n];
    } else {
      SumUpdate(s[..n], i, x, f);
      assert s[i := x][..n] == s[..n][i := x];
    }
  }

  lemma {:induction false} SumNonneg<T>(s: seq<T>, f: T -> int)
    requires forall i | 0 <= i < |s| :: f(s[i]) >= 0
    ensures Sum(s, f) >= 0
    ensures forall i | 0 <= i < |s| :: f(s[i]) <= Sum(s, f)
  {
    if s != [] {
      SumNonneg(s[..|s| - 1], f);
    }
  }

  lemma {:induction false} SumZero<T>(s: seq<T>, f: T -> int)
    requires forall i | 0 <= i < |s| :: f(s[i]) == 0
    ensures Sum(s, f) == 0
  {
    if s != [] {
      SumZero(s[..|s| - 1], f);
    }
  }

  /** Two tables of the same length whose rows agree under f and g have equal sums. */
  lemma {:induction false} SumCongruent<T, U>(s: seq<T>, t: seq<U>, f: T -> int, g: U -> int)
    requires |s| == |t|
    requires forall i | 0 <= i < |s| :: f(s[i]) == g(t[i])
    ensures Sum(s, f) == Sum(t, g)
  {
    if s != [] {
      SumCongruent(s[..|s| - 1], t[..|t| - 1], f, g);
    }
  }

  lemma {:induction false} SumAdd<T>(s: seq<T>, f: T -> int, g: T -> int, h: T -> int)
    requires forall i | 0 <= i < |s| :: f(s[i]) + g(s[i]) == h(s[i])
    ensures Sum(s, f) + Sum(s, g) == Sum(s, h)
  {
    if s != [] {
      SumAdd(s[..|s| - 1], f, g, h);
    }
  }

  lemma {:induction false} SumBelow<T>(s: seq<T>, t: seq<T>, f: T -> int)
    requires |s| == |t|
    requires forall i | 0 <= i < |s| :: f(s[i]) <= f(t[i])
    ensures Sum(s, f) <= Sum(t, f)
  {
    if s != [] {
      SumBelow(s[..|s| - 1], t[..|t| - 1], f);
    }
  }

  lemma Around<T>(t: seq<T>, j: nat)
    requires j < |t|
    ensures t == t[..j] + [t[j]] + t[j + 1..]
  {
  }

  lemma SumRemove<T>(t: seq<T>, j: nat, f: T -> int)
    requires j < |t|
    ensures Sum(t, f) == Sum(t[..j] + t[j + 1..], f) + f(t[j])
  {
    hide Sum;
    var u, v := t[..j], t[j + 1..];
    Around(t, j);
    SumConcat(u + [t[j]], v, f);
    SumPush(u, t[j], f);
    SumConcat(u, v, f);
  }

  lemma MultisetRemove<T>(t: seq<T>, j: nat)
    requires j < |t|
    ensures multiset(t) == multiset(t[..j] + t[j + 1..]) + multiset{t[j]}
  {
    Around(t, j);
  }

  lemma MultisetFront<T>(s: seq<T>)
    requires s != []
    ensures multiset(s[..|s| - 1]) == multiset(s) - multiset{s[|s| - 1]}
  {
    assert s == s[..|s| - 1] + [s[|s| - 1]];
  }

  lemma MultisetFind<T>(s: seq<T>, t: seq<T>) returns (j: nat)
    requires s != [] && multiset(s) == multiset(t)
    ensures j < |t| && t[j] == s[|s| - 1]
    ensures multiset(t[..j] + t[j + 1..]) == multiset(s[..|s| - 1])
  {
    var x := s[|s| - 1];
    assert x in multiset(t) by { assert x in multiset(s); }
    j :| 0 <= j < |t| && t[j] == x;
    MultisetRemove(t, j);
    MultisetFront(s);
    assert multiset(t[..j] + t[j + 1..]) == multiset(t) - multiset{x};
  }

  /** A sum does not depend on the order of the rows. */
  lemma {:induction false} SumPermutation<T>(s: seq<T>, t: seq<T>, f: T -> int)
    requires multiset(s) == multiset(t)
    ensures Sum(s, f) == Sum(t, f)
    decreases |s|
  {
    if s == [] {
      assert |multiset(t)| == 0;
    } else {
      var j := MultisetFind(s, t);
      SumRemove(t, j, f);
      SumPermutation(s[..|s| - 1], t[..j] + t[j + 1..], f);
    }
  }

  /** The rows for which p holds. */
  function Where<T>(s: seq<T>, p: T -> bool): set<nat> { set i: nat | i < |s| && p(s[i]) }

  lemma WherePush<T>(s: seq<T>, p: T -> bool)
    requires s != []
    ensures var n := |s| - 1;
            Where(s, p) == (if p(s[n]) then Where(s[..n], p) + {n} else Where(s[..n], p)) && n !in Where(s[..n], p)
  {
    var n := |s| - 1;
    assert forall i: nat | i < n :: s[..n][i] == s[i];
  }

  /** A sum of ones counts the rows it counts. */
  lemma {:induction false} SumCounts<T>(s: seq<T>, p: T -> bool, f: T -> int)
    requires forall i | 0 <= i < |s| :: f(s[i]) == if p(s[i]) then 1 else 0
    ensures Sum(s, f) == |Where(s, p)|
  {
    if s == [] {
      assert Where(s, p) == {};
    } else {
      SumCounts(s[..|s| - 1], p, f);
      WherePush(s, p);
      hide Where;
    }
  }

  /** The sum of all values of a map: the total of all balances. */
  ghost function Total<K>(m: map<K, int>): int
  {
    if m == map[] then 0 else
      var k :| k in m;
      m[k] + Total(m - {k})
  }

  lemma {:induction false} TotalSplit<K>(m: map<K, int>, k: K)
    requires k in m
    ensures Total(m) == m[k] + Total(m - {k})
    decreases |m|
  {
    var j :| j in m && Total(m) == m[j] + Total(m - {j});
    if j != k {
      TotalSplit(m - {j}, k);
      TotalSplit(m - {k}, j);
      assert m - {j} - {k} == m - {k} - {j};
    }
  }

  lemma TotalUpdate<K>(m: map<K, int>, k: K, v: int)
    ensures Total(m[k := v]) == Total(m) + v - (if k in m then m[k] else 0)
  {
    var m' := m[k := v];
    TotalSplit(m', k);
    if k in m {
      TotalSplit(m, k);
      assert m' - {k} == m - {k};
    } else {
      assert m' - {k} == m;
    }
  }

  // ------------------------------------------------------------------ strings

  /** Lexicographic order by the rank of the elements, a proper prefix first. */
  predicate LexBefore<T(==)>(rank: T -> int, a: seq<T>, b: seq<T>) {
    b != [] && (a == [] || rank(a[0]) < rank(b[0]) || (a[0] == b[0] && LexBefore(rank, a[1..], b[1..])))
  }

  /** If no two elements share a rank, the order is total, irreflexive and antisymmetric. */
  lemma {:induction false} LexTotal<T(!new)>(rank: T -> int, a: seq<T>, b: seq<T>)
    requires forall x, y :: rank(x) == rank(y) ==> x == y
    ensures a != b ==> LexBefore(rank, a, b) || LexBefore(rank, b, a)
    ensures !(LexBefore(rank, a, b) && LexBefore(rank, b, a)) && !LexBefore(rank, a, a)
    decreases |a| + |b|
  {
    if a != [] && b != [] && a[0] == b[0] {
      LexTotal(rank, a[1..], b[1..]);
      assert a == [a[0]] + a[1..] && b == [b[0]] + b[1..];
    }
    if a != [] {
      LexIrreflexive(rank, a);
    }
  }

  lemma {:induction false} LexIrreflexive<T>(rank: T -> int, a: seq<T>)
    ensures !LexBefore(rank, a, a)
  {
    if a != [] {
      LexIrreflexive(rank, a[1..]);
    }
  }

  lemma {:induction false} LexTransitive<T>(rank: T -> int, a: seq<T>, b: seq<T>, c: seq<T>)
    requires LexBefore(rank, a, b) && LexBefore(rank, b, c)
    ensures LexBefore(rank, a, c)
  {
    if a != [] && a[0] == b[0] == c[0] {
      LexTransitive(rank, a[1..], b[1..], c[1..]);
    }
  }
}
