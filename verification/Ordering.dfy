/** Strict total orders, lexicographic order on sequences, and the sorted
    duplicate-free form that an ordered map or `sort` + `dedup` produces. */
module Ordering {
  predicate CharLess(a: char, b: char) { a < b }

  ghost predicate StrictTotal<T(!new)>(lt: (T, T) -> bool) {
    && (forall a :: !lt(a, a))
    && (forall a, b, c :: lt(a, b) && lt(b, c) ==> lt(a, c))
    && (forall a, b :: lt(a, b) || a == b || lt(b, a))
  }

  predicate LexLess<T(==)>(lt: (T, T) -> bool, a: seq<T>, b: seq<T>) {
    b != [] && (a == [] || lt(a[0], b[0]) || (a[0] == b[0] && LexLess(lt, a[1..], b[1..])))
  }

  function Lex<T(==)>(lt: (T, T) -> bool): (seq<T>, seq<T>) -> bool {
    (a, b) => LexLess(lt, a, b)
  }

  lemma {:induction false} LexIrreflexive<T(!new)>(lt: (T, T) -> bool, a: seq<T>)
    requires StrictTotal(lt)
    ensures !LexLess(lt, a, a)
  {
    if a != [] { LexIrreflexive(lt, a[1..]); }
  }

  lemma {:induction false} LexTransitive<T(!new)>(lt: (T, T) -> bool, a: seq<T>, b: seq<T>, c: seq<T>)
    requires StrictTotal(lt) && LexLess(lt, a, b) && LexLess(lt, b, c)
    ensures LexLess(lt, a, c)
  {
    if a != [] && a[0] == b[0] && b[0] == c[0] && !lt(a[0], b[0]) && !lt(b[0], c[0]) {
      LexTransitive(lt, a[1..], b[1..], c[1..]);
    }
  }

  lemma {:induction false} LexTrichotomous<T(!new)>(lt: (T, T) -> bool, a: seq<T>, b: seq<T>)
    requires StrictTotal(lt)
    ensures LexLess(lt, a, b) || a == b || LexLess(lt, b, a)
  {
    if a != [] && b != [] {
      assert lt(a[0], b[0]) || a[0] == b[0] || lt(b[0], a[0]);
      LexTrichotomous(lt, a[1..], b[1..]);
      assert a == [a[0]] + a[1..] && b == [b[0]] + b[1..];
    }
  }

  lemma LexTotal<T(!new)>(lt: (T, T) -> bool)
    requires StrictTotal(lt)
    ensures StrictTotal(Lex(lt))
  {
    var lex := Lex(lt);
    forall a ensures !lex(a, a) { LexIrreflexive(lt, a); }
    forall a, b, c | lex(a, b) && lex(b, c) ensures lex(a, c) { LexTransitive(lt, a, b, c); }
    forall a, b ensures lex(a, b) || a == b || lex(b, a) { LexTrichotomous(lt, a, b); }
  }

  // ----- Sorted sequences without duplicates -----

  ghost predicate Sorted<T(!new)>(lt: (T, T) -> bool, s: seq<T>) {
    forall i, j :: 0 <= i < j < |s| ==> lt(s[i], s[j])
  }

  /** Puts an element at its place unless it is already there. */
  function Insert<T(==)>(lt: (T, T) -> bool, s: seq<T>, x: T): seq<T> {
    if s == [] then [x]
    else if s[0] == x then s
    else if lt(x, s[0]) then [x] + s
    else [s[0]] + Insert(lt, s[1..], x)
  }

  function SortDedup<T(==)>(lt: (T, T) -> bool, s: seq<T>): seq<T> {
    if s == [] then [] else Insert(lt, SortDedup(lt, s[..|s| - 1]), s[|s| - 1])
  }

  lemma {:induction false} InsertMembers<T(!new)>(lt: (T, T) -> bool, s: seq<T>, x: T)
    ensures forall y :: y in Insert(lt, s, x) <==> y in s || y == x
    ensures |s| <= |Insert(lt, s, x)| <= |s| + 1
  {
    if s != [] {
      InsertMembers(lt, s[1..], x);
      assert s == [s[0]] + s[1..];
    }
  }

  lemma ConsSorted<T(!new)>(lt: (T, T) -> bool, x: T, s: seq<T>)
    requires Sorted(lt, s) && forall y | y in s :: lt(x, y)
    ensures Sorted(lt, [x] + s)
  {
    var t := [x] + s;
    forall i, j | 0 <= i < j < |t| ensures lt(t[i], t[j]) {
      if i == 0 { assert t[j] in s; } else { assert lt(s[i - 1], s[j - 1]); }
    }
  }

  lemma {:induction false} InsertSorted<T(!new)>(lt: (T, T) -> bool, s: seq<T>, x: T)
    requires StrictTotal(lt) && Sorted(lt, s)
    ensures Sorted(lt, Insert(lt, s, x))
    ensures |Insert(lt, s, x)| == |s| + (if x in s then 0 else 1)
    ensures x in s ==> Insert(lt, s, x) == s
  {
    if s != [] && s[0] != x {
      assert s == [s[0]] + s[1..];
      forall y | y in s[1..] ensures lt(s[0], y) {
        var j :| 0 <= j < |s[1..]| && s[1..][j] == y;
        assert lt(s[0], s[j + 1]);
      }
      if lt(x, s[0]) {
        forall y | y in s ensures lt(x, y) {
          assert y == s[0] || lt(s[0], y);
        }
        ConsSorted(lt, x, s);
        assert x !in s;
      } else {
        InsertSorted(lt, s[1..], x);
        InsertMembers(lt, s[1..], x);
        assert lt(s[0], x);
        ConsSorted(lt, s[0], Insert(lt, s[1..], x));
      }
    }
  }

  lemma {:induction false} SortDedupCorrect<T(!new)>(lt: (T, T) -> bool, s: seq<T>)
    requires StrictTotal(lt)
    ensures Sorted(lt, SortDedup(lt, s))
    ensures forall y :: y in SortDedup(lt, s) <==> y in s
  {
    if s != [] {
      var front, last := s[..|s| - 1], s[|s| - 1];
      SortDedupCorrect(lt, front);
      InsertSorted(lt, SortDedup(lt, front), last);
      InsertMembers(lt, SortDedup(lt, front), last);
      assert s == front + [last];
    }
  }

  lemma HeadLeast<T(!new)>(lt: (T, T) -> bool, a: seq<T>, y: T)
    requires Sorted(lt, a) && y in a
    ensures y == a[0] || lt(a[0], y)
  {
    var i :| 0 <= i < |a| && a[i] == y;
  }

  lemma TailMembers<T(!new)>(lt: (T, T) -> bool, a: seq<T>, y: T)
    requires StrictTotal(lt) && Sorted(lt, a) && a != []
    ensures y in a[1..] <==> y in a && y != a[0]
  {
    if y in a[1..] {
      var i :| 0 <= i < |a[1..]| && a[1..][i] == y;
      assert lt(a[0], a[i + 1]);
    }
    assert a == [a[0]] + a[1..];
  }

  /** A sorted duplicate-free sequence is determined by its members. */
  lemma {:induction false} SortedUnique<T(!new)>(lt: (T, T) -> bool, a: seq<T>, b: seq<T>)
    requires StrictTotal(lt) && Sorted(lt, a) && Sorted(lt, b)
    requires forall y :: y in a <==> y in b
    ensures a == b
  {
    assert b != [] ==> b[0] in b;
    if a != [] {
      assert a[0] in b && b[0] in a;
      HeadLeast(lt, a, b[0]);
      HeadLeast(lt, b, a[0]);
      forall y ensures y in a[1..] <==> y in b[1..] {
        TailMembers(lt, a, y);
        TailMembers(lt, b, y);
      }
      SortedUnique(lt, a[1..], b[1..]);
      assert a == [a[0]] + a[1..] && b == [b[0]] + b[1..];
    }
  }

  lemma SortDedupOfMembers<T(!new)>(lt: (T, T) -> bool, a: seq<T>, b: seq<T>)
    requires StrictTotal(lt)
    requires forall y :: y in a <==> y in b
    ensures SortDedup(lt, a) == SortDedup(lt, b)
  {
    SortDedupCorrect(lt, a);
    SortDedupCorrect(lt, b);
    SortedUnique(lt, SortDedup(lt, a), SortDedup(lt, b));
  }

  // ----- Stable sorting by a preorder -----

  ghost predicate TotalPreorder<T(!new)>(leq: (T, T) -> bool) {
    && (forall a, b :: leq(a, b) || leq(b, a))
    && (forall a, b, c :: leq(a, b) && leq(b, c) ==> leq(a, c))
  }

  /** A relation holds of every two positions in order. */
  ghost predicate Pairwise<T(!new)>(rel: (T, T) -> bool, s: seq<T>) {
    forall i, j :: 0 <= i < j < |s| ==> rel(s[i], s[j])
  }

  ghost predicate Symmetric<T(!new)>(rel: (T, T) -> bool) {
    forall a, b :: rel(a, b) ==> rel(b, a)
  }

  /** Puts an element behind everything at or below it. */
  function InsertStable<T>(leq: (T, T) -> bool, s: seq<T>, x: T): seq<T> {
    if s == [] || leq(s[|s| - 1], x) then s + [x] else InsertStable(leq, s[..|s| - 1], x) + [s[|s| - 1]]
  }

  function StableSort<T>(leq: (T, T) -> bool, s: seq<T>): seq<T> {
    if s == [] then [] else InsertStable(leq, StableSort(leq, s[..|s| - 1]), s[|s| - 1])
  }

  lemma AppendPairwise<T(!new)>(rel: (T, T) -> bool, s: seq<T>, x: T)
    ensures Pairwise(rel, s + [x]) <==> Pairwise(rel, s) && forall y :: y in s ==> rel(y, x)
  {
    var t := s + [x];
    assert t[|s|] == x && forall i :: 0 <= i < |s| ==> t[i] == s[i];
    if Pairwise(rel, t) {
      forall i, j | 0 <= i < j < |s| ensures rel(s[i], s[j]) { assert rel(t[i], t[j]); }
      forall y | y in s ensures rel(y, x) {
        var i :| 0 <= i < |s| && s[i] == y;
        assert rel(t[i], t[|s|]);
      }
    }
    if Pairwise(rel, s) && forall y :: y in s ==> rel(y, x) {
      forall i, j | 0 <= i < j < |t| ensures rel(t[i], t[j]) {
        if j == |s| { assert t[i] in s; } else { assert rel(s[i], s[j]); }
      }
    }
  }

  lemma {:induction false} InsertStableMembers<T(!new)>(leq: (T, T) -> bool, s: seq<T>, x: T)
    ensures forall y :: y in InsertStable(leq, s, x) <==> y in s || y == x
  {
    if !(s == [] || leq(s[|s| - 1], x)) {
      InsertStableMembers(leq, s[..|s| - 1], x);
      assert s == s[..|s| - 1] + [s[|s| - 1]];
    }
  }

  lemma {:induction false} InsertStablePairwise<T(!new)>(leq: (T, T) -> bool, rel: (T, T) -> bool, s: seq<T>, x: T)
    requires Pairwise(rel, s)
    requires forall y :: y in s && leq(y, x) ==> rel(y, x)
    requires forall y :: y in s && !leq(y, x) ==> rel(x, y)
    requires forall y, z :: y in s && z in s && rel(y, z) && leq(z, x) ==> rel(y, x)
    ensures Pairwise(rel, InsertStable(leq, s, x))
  {
    if s == [] {
    } else {
      var front, last := s[..|s| - 1], s[|s| - 1];
      assert s == front + [last];
      AppendPairwise(rel, front, last);
      if leq(last, x) {
        AppendPairwise(rel, s, x);
      } else {
        InsertStablePairwise(leq, rel, front, x);
        InsertStableMembers(leq, front, x);
        AppendPairwise(rel, InsertStable(leq, front, x), last);
      }
    }
  }

  lemma {:induction false} SortMembers<T(!new)>(leq: (T, T) -> bool, s: seq<T>)
    ensures forall y :: y in StableSort(leq, s) <==> y in s
  {
    if s != [] {
      SortMembers(leq, s[..|s| - 1]);
      InsertStableMembers(leq, StableSort(leq, s[..|s| - 1]), s[|s| - 1]);
      assert s == s[..|s| - 1] + [s[|s| - 1]];
    }
  }

  /** Sorting orders the elements. */
  lemma {:induction false} SortOrders<T(!new)>(leq: (T, T) -> bool, s: seq<T>)
    requires TotalPreorder(leq)
    ensures Pairwise(leq, StableSort(leq, s))
  {
    if s != [] {
      SortOrders(leq, s[..|s| - 1]);
      InsertStablePairwise(leq, leq, StableSort(leq, s[..|s| - 1]), s[|s| - 1]);
    }
  }

  /** Sorting keeps every symmetric relation between elements. */
  lemma {:induction false} SortKeepsPairs<T(!new)>(leq: (T, T) -> bool, rel: (T, T) -> bool, s: seq<T>)
    requires Symmetric(rel) && Pairwise(rel, s)
    ensures Pairwise(rel, StableSort(leq, s))
  {
    if s != [] {
      var front, last := s[..|s| - 1], s[|s| - 1];
      assert s == front + [last];
      AppendPairwise(rel, front, last);
      SortKeepsPairs(leq, rel, front);
      SortMembers(leq, front);
      InsertStablePairwise(leq, rel, StableSort(leq, front), last);
    }
  }

  /** An ordered sequence is already sorted. */
  lemma {:induction false} SortOfOrdered<T(!new)>(leq: (T, T) -> bool, s: seq<T>)
    requires Pairwise(leq, s)
    ensures StableSort(leq, s) == s
  {
    if s != [] {
      var front, last := s[..|s| - 1], s[|s| - 1];
      assert s == front + [last];
      AppendPairwise(leq, front, last);
      SortOfOrdered(leq, front);
      assert front != [] ==> front[|front| - 1] in front;
    }
  }

  lemma PairwiseConcat<T(!new)>(rel: (T, T) -> bool, a: seq<T>, b: seq<T>)
    requires Pairwise(rel, a) && Pairwise(rel, b)
    requires forall x, y :: x in a && y in b ==> rel(x, y)
    ensures Pairwise(rel, a + b)
  {
    var all := a + b;
    forall i, j | 0 <= i < j < |all| ensures rel(all[i], all[j]) {
      if j < |a| { assert rel(a[i], a[j]); }
      else if i >= |a| { assert rel(b[i - |a|], b[j - |a|]); }
      else { assert all[i] in a && all[j] in b; }
    }
  }
}
