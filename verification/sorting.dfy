/**
 * Python's `sorted` applied to a set of distinct keys: the result is the
 * one strictly ascending sequence holding exactly the set's elements.
 * The translator sorts its variable names (as strings) and its constant
 * values (as integers) this way before writing the data section.
 */
module Sorting {
  import Text

  /** `less` is a strict total order on the elements of `s`. */
  ghost predicate StrictTotalOn<T(!new)>(s: set<T>, less: (T, T) -> bool) {
    && (forall a :: a in s ==> !less(a, a))
    && (forall a, b, c :: a in s && b in s && c in s && less(a, b) && less(b, c) ==> less(a, c))
    && (forall a, b :: a in s && b in s ==> a == b || less(a, b) || less(b, a))
  }

  predicate Ascending<T>(r: seq<T>, less: (T, T) -> bool) {
    forall i, j :: 0 <= i < j < |r| ==> less(r[i], r[j])
  }

  /** `r` lists the elements of `s` in ascending order, each once. */
  ghost predicate Enumerates<T(!new)>(r: seq<T>, s: set<T>, less: (T, T) -> bool) {
    Ascending(r, less) && (forall x :: x in r <==> x in s)
  }

  predicate IsLeast<T(!new)>(m: T, s: set<T>, less: (T, T) -> bool) {
    m in s && forall y :: y in s ==> y == m || less(m, y)
  }

  lemma {:induction false} LeastExists<T(!new)>(s: set<T>, less: (T, T) -> bool) returns (m: T)
    requires s != {} && StrictTotalOn(s, less)
    ensures IsLeast(m, s, less)
    decreases |s|
  {
    var x :| x in s;
    if s == {x} {
      m := x;
    } else {
      var rest := s - {x};
      assert StrictTotalOn(rest, less);
      var m' := LeastExists(rest, less);
      if less(x, m') {
        m := x;
      } else {
        m := m';
      }
    }
  }

  lemma {:induction false} EnumerationExists<T(!new)>(s: set<T>, less: (T, T) -> bool)
    requires StrictTotalOn(s, less)
    ensures exists r :: Enumerates(r, s, less)
    decreases |s|
  {
    if s == {} {
      assert Enumerates([], s, less);
    } else {
      var m := LeastExists(s, less);
      var rest := s - {m};
      assert StrictTotalOn(rest, less);
      EnumerationExists(rest, less);
      var r' :| Enumerates(r', rest, less);
      var r := [m] + r';
      forall i, j | 0 <= i < j < |r| ensures less(r[i], r[j]) {
        if i > 0 { assert r[i] == r'[i - 1] && r[j] == r'[j - 1]; }
        else { assert r[j] == r'[j - 1] && r[j] in rest; }
      }
      assert Enumerates(r, s, less);
    }
  }

  lemma FirstIsLeast<T(!new)>(r: seq<T>, s: set<T>, less: (T, T) -> bool)
    requires Enumerates(r, s, less) && r != []
    ensures IsLeast(r[0], s, less)
  {
    forall y | y in s ensures y == r[0] || less(r[0], y) {
      var k :| 0 <= k < |r| && r[k] == y;
      if k > 0 { assert less(r[0], r[k]); }
    }
  }

  /**
   * Sorting is deterministic: two ascending enumerations of the same set
   * are the same sequence.
   */
  lemma {:induction false} EnumerationUnique<T(!new)>(r1: seq<T>, r2: seq<T>, s: set<T>, less: (T, T) -> bool)
    requires StrictTotalOn(s, less)
    requires Enumerates(r1, s, less) && Enumerates(r2, s, less)
    ensures r1 == r2
    decreases |r1|
  {
    assert r1 != [] ==> r1[0] in s;
    assert r2 != [] ==> r2[0] in s;
    if s != {} {
      var x :| x in s;
      assert x in r1 && x in r2;
    }
    if r1 != [] && r2 != [] {
      var a, b := r1[0], r2[0];
      FirstIsLeast(r1, s, less);
      FirstIsLeast(r2, s, less);
      assert a == b;
      var rest := s - {a};
      assert StrictTotalOn(rest, less);
      forall x ensures x in r1[1..] <==> x in rest {
        if x in r1[1..] {
          var k :| 1 <= k < |r1| && r1[k] == x;
          assert less(a, x);
        }
        if x in rest { assert x in r1; var k :| 0 <= k < |r1| && r1[k] == x; assert k != 0; assert r1[1..][k - 1] == x; }
      }
      forall x ensures x in r2[1..] <==> x in rest {
        if x in r2[1..] {
          var k :| 1 <= k < |r2| && r2[k] == x;
          assert less(b, x);
        }
        if x in rest { assert x in r2; var k :| 0 <= k < |r2| && r2[k] == x; assert k != 0; assert r2[1..][k - 1] == x; }
      }
      EnumerationUnique(r1[1..], r2[1..], rest, less);
      assert r1 == [a] + r1[1..] && r2 == [b] + r2[1..];
    }
  }

  /** The ascending enumeration of `s`: what `sorted(s)` returns. */
  ghost function SortedSeq<T(!new)>(s: set<T>, less: (T, T) -> bool): (r: seq<T>)
    requires StrictTotalOn(s, less)
    ensures Enumerates(r, s, less)
  {
    EnumerationExists(s, less);
    var r :| Enumerates(r, s, less); r
  }

  /** What the selection loop of `Sort` keeps: `r` is sorted, `rest` is what is left, all of it above `r`. */
  ghost predicate SortInv<T(!new)>(r: seq<T>, rest: set<T>, s: set<T>, less: (T, T) -> bool) {
    && rest <= s
    && Ascending(r, less)
    && (forall x :: x in r <==> x in s && x !in rest)
    && (forall i, y :: 0 <= i < |r| && y in rest ==> less(r[i], y))
    && |r| + |rest| == |s|
  }

  lemma SortStep<T(!new)>(r: seq<T>, rest: set<T>, s: set<T>, less: (T, T) -> bool, m: T)
    requires StrictTotalOn(s, less) && SortInv(r, rest, s, less) && IsLeast(m, rest, less)
    ensures SortInv(r + [m], rest - {m}, s, less)
  {
    assert m !in r;
    var r' := r + [m];
    forall i, j | 0 <= i < j < |r'| ensures less(r'[i], r'[j]) {
      if j < |r| { assert r'[i] == r[i] && r'[j] == r[j]; }
    }
    forall x ensures x in r' <==> x in s && x !in rest - {m} {
      if x in r' && x != m { assert x in r; }
    }
  }

  /** Computes `sorted(s)` by repeatedly taking the least remaining element. */
  method Sort<T(!new)>(s: set<T>, less: (T, T) -> bool) returns (r: seq<T>)
    requires StrictTotalOn(s, less)
    ensures r == SortedSeq(s, less)
    ensures |r| == |s|
  {
    r := [];
    var rest := s;
    while rest != {}
      invariant SortInv(r, rest, s, less)
      decreases |rest|
    {
      assert StrictTotalOn(rest, less);
      ghost var least := LeastExists(rest, less);
      var m :| m in rest && IsLeast(m, rest, less);
      SortStep(r, rest, s, less, m);
      r := r + [m];
      rest := rest - {m};
    }
    EnumerationUnique(r, SortedSeq(s, less), s, less);
  }

  lemma StringOrder(s: set<string>)
    ensures StrictTotalOn(s, Text.LexLess)
  {
    forall a | a in s ensures !Text.LexLess(a, a) { Text.LexLessIrreflexive(a); }
    forall a, b, c | a in s && b in s && c in s && Text.LexLess(a, b) && Text.LexLess(b, c)
      ensures Text.LexLess(a, c)
    {
      Text.LexLessTransitive(a, b, c);
    }
    forall a, b | a in s && b in s ensures a == b || Text.LexLess(a, b) || Text.LexLess(b, a) {
      Text.LexLessTotal(a, b);
    }
  }

  /** The order `sorted` uses on integers. */
  predicate NatLess(a: nat, b: nat) {
    a < b
  }

  lemma NatOrder(s: set<nat>)
    ensures StrictTotalOn(s, NatLess)
  {
  }
}
