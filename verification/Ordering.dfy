/** Stable sorting, as `sort_by` does it, and the order of strings. */
module Ordering {

  /** Total and transitive: enough for a sorted result to exist. */
  ghost predicate Ranking<T(!new)>(le: (T, T) -> bool) {
    && (forall x, y :: le(x, y) || le(y, x))
    && (forall x, y, z :: le(x, y) && le(y, z) ==> le(x, z))
  }

  /** ... and antisymmetric: enough for it to be the only one. */
  ghost predicate TotalOrder<T(!new)>(le: (T, T) -> bool) {
    Ranking(le) && forall x, y :: le(x, y) && le(y, x) ==> x == y
  }

  predicate Sorted<T>(s: seq<T>, le: (T, T) -> bool) {
    forall i, k :: 0 <= i < k < |s| ==> le(s[i], s[k])
  }

  predicate Distinct<T(==)>(s: seq<T>) {
    forall i, k :: 0 <= i < k < |s| ==> s[i] != s[k]
  }

  function Insert<T>(x: T, s: seq<T>, le: (T, T) -> bool): seq<T> {
    if s == [] || le(x, s[0]) then [x] + s else [s[0]] + Insert(x, s[1..], le)
  }

  function Sort<T>(s: seq<T>, le: (T, T) -> bool): seq<T> {
    if s == [] then [] else Insert(s[0], Sort(s[1..], le), le)
  }

  lemma {:induction false} InsertKeeps<T>(x: T, s: seq<T>, le: (T, T) -> bool)
    ensures multiset(Insert(x, s, le)) == multiset{x} + multiset(s)
  {
    if s != [] && !le(x, s[0]) {
      InsertKeeps(x, s[1..], le);
      assert s == [s[0]] + s[1..];
    }
  }

  lemma {:induction false} SortKeeps<T>(s: seq<T>, le: (T, T) -> bool)
    ensures multiset(Sort(s, le)) == multiset(s)
  {
    if s != [] {
      SortKeeps(s[1..], le);
      InsertKeeps(s[0], Sort(s[1..], le), le);
      assert s == [s[0]] + s[1..];
    }
  }

  lemma SameElements<T>(a: seq<T>, b: seq<T>)
    requires multiset(a) == multiset(b)
    ensures |a| == |b|
    ensures forall x :: x in a <==> x in b
  {
    assert |multiset(a)| == |a| && |multiset(b)| == |b|;
    forall x ensures x in a <==> x in b {
      assert x in multiset(a) <==> x in a;
      assert x in multiset(b) <==> x in b;
    }
  }

  lemma {:induction false} InsertSorts<T(!new)>(x: T, s: seq<T>, le: (T, T) -> bool)
    requires Ranking(le) && Sorted(s, le)
    ensures Sorted(Insert(x, s, le), le)
  {
    if s != [] && !le(x, s[0]) {
      InsertSorts(x, s[1..], le);
      InsertKeeps(x, s[1..], le);
      var rest := Insert(x, s[1..], le);
      SameElements(rest, [x] + s[1..]);
      forall y | y in rest ensures le(s[0], y) { assert y == x || y in s[1..]; }
    } else {
      forall y | y in s ensures le(x, y) {
        assert le(s[0], y);
      }
    }
  }

  lemma {:induction false} SortSorts<T(!new)>(s: seq<T>, le: (T, T) -> bool)
    requires Ranking(le)
    ensures Sorted(Sort(s, le), le)
  {
    if s != [] {
      SortSorts(s[1..], le);
      InsertSorts(s[0], Sort(s[1..], le), le);
    }
  }

  /** A distinct sorted list is determined by its elements. */
  lemma {:induction false} SortedIsUnique<T(!new)>(a: seq<T>, b: seq<T>, le: (T, T) -> bool)
    requires TotalOrder(le) && Sorted(a, le) && Sorted(b, le) && Distinct(a) && Distinct(b)
    requires forall x :: x in a <==> x in b
    ensures a == b
    decreases |a|
  {
    if a == [] {
      EmptyWithin(a, b);
    } else {
      assert a[0] in a && a[0] in b;
      assert b[0] in b && b[0] in a;
      assert le(a[0], b[0]) && le(b[0], a[0]);
      forall x ensures x in a[1..] <==> x in b[1..] {
        assert x in a[1..] <==> x in a && x != a[0];
        assert x in b[1..] <==> x in b && x != b[0];
      }
      SortedIsUnique(a[1..], b[1..], le);
      assert a == [a[0]] + a[1..] && b == [b[0]] + b[1..];
    }
  }

  lemma EmptyWithin<T>(a: seq<T>, b: seq<T>)
    requires forall x :: x in b ==> x in a
    ensures a == [] ==> b == []
  {
    if b != [] {
      assert b[0] in a;
    }
  }

  lemma DistinctIsAMultisetMatter<T>(a: seq<T>, b: seq<T>)
    requires multiset(a) == multiset(b) && Distinct(a)
    ensures Distinct(b)
  {
    forall i, k | 0 <= i < k < |b| ensures b[i] != b[k] {
      if b[i] == b[k] {
        Twice(b, i, k);
        OnceEach(a, b[i]);
        assert false;
      }
    }
  }

  lemma Twice<T>(b: seq<T>, i: nat, k: nat)
    requires i < k < |b| && b[i] == b[k]
    ensures multiset(b)[b[i]] >= 2
  {
    assert b == b[..k] + [b[k]] + b[k + 1..];
    assert b[i] in b[..k];
  }

  lemma {:induction false} OnceEach<T>(a: seq<T>, x: T)
    requires Distinct(a)
    ensures multiset(a)[x] <= 1
    decreases |a|
  {
    if a != [] {
      OnceEach(a[1..], x);
      assert a == [a[0]] + a[1..];
      assert forall i :: 0 <= i < |a[1..]| ==> a[1..][i] == a[i + 1] != a[0];
    }
  }

  /** Everything a caller needs to know about a sorted list of distinct elements. */
  lemma SortSpec<T(!new)>(s: seq<T>, le: (T, T) -> bool)
    requires Ranking(le)
    ensures Sorted(Sort(s, le), le) && |Sort(s, le)| == |s|
    ensures forall x :: x in Sort(s, le) <==> x in s
    ensures Distinct(s) ==> Distinct(Sort(s, le))
  {
    SortSorts(s, le);
    SortKeeps(s, le);
    SameElements(Sort(s, le), s);
    if Distinct(s) {
      DistinctIsAMultisetMatter(s, Sort(s, le));
    }
  }

  /** Sorting looks at nothing but the elements it is given. */
  lemma {:induction false} SortAgree<T>(s: seq<T>, le1: (T, T) -> bool, le2: (T, T) -> bool)
    requires forall x, y :: x in s && y in s ==> le1(x, y) == le2(x, y)
    ensures Sort(s, le1) == Sort(s, le2)
  {
    if s != [] {
      assert forall x :: x in s[1..] ==> x in s;
      SortAgree(s[1..], le1, le2);
      var r := Sort(s[1..], le1);
      SortKeeps(s[1..], le1);
      forall y | y in r ensures le1(s[0], y) == le2(s[0], y) {
        assert y in multiset(s[1..]) && s[0] in s;
      }
      InsertAgree(s[0], r, le1, le2);
    }
  }

  lemma {:induction false} InsertAgree<T>(x: T, s: seq<T>, le1: (T, T) -> bool, le2: (T, T) -> bool)
    requires forall y :: y in s ==> le1(x, y) == le2(x, y)
    ensures Insert(x, s, le1) == Insert(x, s, le2)
  {
    if s != [] {
      InsertAgree(x, s[1..], le1, le2);
    }
  }

  /** A distinct list sorted by two total orders shows that they agree on its elements. */
  lemma SortedByBoth<T(!new)>(r: seq<T>, le1: (T, T) -> bool, le2: (T, T) -> bool, x: T, y: T)
    requires TotalOrder(le1) && TotalOrder(le2) && Distinct(r) && Sorted(r, le1) && Sorted(r, le2)
    requires x in r && y in r
    ensures le1(x, y) == le2(x, y)
  {
    var i :| 0 <= i < |r| && r[i] == x;
    var k :| 0 <= k < |r| && r[k] == y;
    if i < k {
      assert le1(x, y) && le2(x, y);
    } else if k < i {
      assert le1(y, x) && le2(y, x) && x != y;
    }
  }

  // --- first-occurrence deduplication ----------------------------------------------------------

  /** Append the elements of `s` that are not there yet, in order. */
  function DedupOnto<T(==)>(acc: seq<T>, s: seq<T>): seq<T>
    decreases |s|
  {
    if s == [] then acc
    else DedupOnto(if s[0] in acc then acc else acc + [s[0]], s[1..])
  }

  lemma {:induction false} DedupSpec<T>(acc: seq<T>, s: seq<T>)
    requires Distinct(acc)
    ensures Distinct(DedupOnto(acc, s))
    ensures forall x :: x in DedupOnto(acc, s) <==> x in acc || x in s
    ensures acc <= DedupOnto(acc, s)
    decreases |s|
  {
    if s != [] {
      DedupSpec(if s[0] in acc then acc else acc + [s[0]], s[1..]);
      assert s == [s[0]] + s[1..];
    }
  }

  lemma {:induction false} DedupSnoc<T>(acc: seq<T>, s: seq<T>, x: T)
    ensures var d := DedupOnto(acc, s);
            DedupOnto(acc, s + [x]) == if x in d then d else d + [x]
    decreases |s|
  {
    if s == [] {
      assert s + [x] == [x] && [x][1..] == [];
    } else {
      assert (s + [x])[1..] == s[1..] + [x];
      DedupSnoc(if s[0] in acc then acc else acc + [s[0]], s[1..], x);
    }
  }

  lemma {:induction false} DedupConcat<T>(acc: seq<T>, s: seq<T>, t: seq<T>)
    ensures DedupOnto(acc, s + t) == DedupOnto(DedupOnto(acc, s), t)
    decreases |s|
  {
    if s == [] {
      assert s + t == t;
    } else {
      assert (s + t)[1..] == s[1..] + t;
      DedupConcat(if s[0] in acc then acc else acc + [s[0]], s[1..], t);
    }
  }

  // --- strings ---------------------------------------------------------------------------------

  predicate LexLe(a: string, b: string) {
    a == [] || (b != [] && (a[0] < b[0] || (a[0] == b[0] && LexLe(a[1..], b[1..]))))
  }

  /** The strings first differ at `n`, where `a` has the smaller character. */
  predicate SmallerAt(a: string, b: string, n: nat) {
    n < |a| && n < |b| && a[n] < b[n] && forall i :: 0 <= i < n ==> a[i] == b[i]
  }

  predicate IsPrefix(a: string, b: string) {
    |a| <= |b| && forall i :: 0 <= i < |a| ==> a[i] == b[i]
  }

  /** What the order of strings means: a prefix, or the smaller character where they first differ. */
  predicate Precedes(a: string, b: string) {
    IsPrefix(a, b) || exists n: nat :: n < |a| && SmallerAt(a, b, n)
  }

  lemma PrecedesStep(a: string, b: string)
    requires a != [] && b != []
    ensures Precedes(a, b) <==> a[0] < b[0] || (a[0] == b[0] && Precedes(a[1..], b[1..]))
  {
    var x, y := a[1..], b[1..];
    assert IsPrefix(a, b) <==> a[0] == b[0] && IsPrefix(x, y) by {
      if IsPrefix(a, b) { assert a[0] == b[0]; }
    }
    if n: nat :| n < |a| && SmallerAt(a, b, n) {
      if n > 0 { assert a[0] == b[0] && SmallerAt(x, y, n - 1); }
    }
    if a[0] < b[0] { assert SmallerAt(a, b, 0); }
    if n: nat :| n < |x| && SmallerAt(x, y, n) {
      if a[0] == b[0] { assert SmallerAt(a, b, n + 1); }
    }
  }

  lemma {:induction false} LexMeaning(a: string, b: string)
    ensures LexLe(a, b) <==> Precedes(a, b)
  {
    if a != [] && b != [] {
      PrecedesStep(a, b);
      LexMeaning(a[1..], b[1..]);
    }
  }

  lemma {:induction false} LexTotal(a: string, b: string)
    ensures LexLe(a, b) || LexLe(b, a)
  {
    if a != [] && b != [] { LexTotal(a[1..], b[1..]); }
  }

  lemma {:induction false} LexAntisymmetric(a: string, b: string)
    requires LexLe(a, b) && LexLe(b, a)
    ensures a == b
  {
    if a != [] && b != [] {
      LexAntisymmetric(a[1..], b[1..]);
      assert a == [a[0]] + a[1..] && b == [b[0]] + b[1..];
    }
  }

  lemma {:induction false} LexTransitive(a: string, b: string, c: string)
    requires LexLe(a, b) && LexLe(b, c)
    ensures LexLe(a, c)
  {
    if a != [] && a[0] == b[0] == c[0] {
      LexTransitive(a[1..], b[1..], c[1..]);
    }
  }

  lemma LexIsATotalOrder()
    ensures TotalOrder(LexLe)
  {
    forall a: string, b: string ensures LexLe(a, b) || LexLe(b, a) { LexTotal(a, b); }
    forall a: string, b: string | LexLe(a, b) && LexLe(b, a) ensures a == b { LexAntisymmetric(a, b); }
    forall a: string, b: string, c: string | LexLe(a, b) && LexLe(b, c) ensures LexLe(a, c) {
      LexTransitive(a, b, c);
    }
  }
}
