/**
 Strict total orders, strictly ascending sequences, and the construction of
 the ascending list of distinct values of a sequence (what Python's
 `sorted(set(xs))` and pandas' sorted group keys produce).
 */
module Ordering {

  ghost predicate Irreflexive<T(!new)>(lt: (T, T) -> bool) {
    forall x :: !lt(x, x)
  }

  ghost predicate Transitive<T(!new)>(lt: (T, T) -> bool) {
    forall x, y, z :: lt(x, y) && lt(y, z) ==> lt(x, z)
  }

  /** Any two values are equal or comparable. */
  ghost predicate Trichotomous<T(!new)>(lt: (T, T) -> bool) {
    forall x, y :: x == y || lt(x, y) || lt(y, x)
  }

  ghost predicate StrictTotalOrder<T(!new)>(lt: (T, T) -> bool) {
    Irreflexive(lt) && Transitive(lt) && Trichotomous(lt)
  }

  /** Every element is below every later element: sorted, without repeats. */
  ghost predicate StrictlyAscending<T>(xs: seq<T>, lt: (T, T) -> bool) {
    forall i, j :: 0 <= i < j < |xs| ==> lt(xs[i], xs[j])
  }

  /** Inserts `x` at its place in an ascending list, unless it is already there. */
  function Insert<T(!new)>(xs: seq<T>, x: T, lt: (T, T) -> bool): (r: seq<T>)
    requires StrictTotalOrder(lt)
    requires StrictlyAscending(xs, lt)
    ensures StrictlyAscending(r, lt)
    ensures forall y :: y in r <==> y in xs || y == x
  {
    if |xs| == 0 then [x]
    else if lt(x, xs[0]) then [x] + xs
    else if lt(xs[0], x) then
      var tail := Insert(xs[1..], x, lt);
      assert forall y :: y in tail ==> lt(xs[0], y) by {
        forall y | y in tail ensures lt(xs[0], y) {
          if y != x {
            var k :| 1 <= k < |xs| && xs[k] == y;
          }
        }
      }
      [xs[0]] + tail
    else
      xs
  }

  /** The distinct values of `xs`, in ascending order. */
  function SortedDistinct<T(!new)>(xs: seq<T>, lt: (T, T) -> bool): (r: seq<T>)
    requires StrictTotalOrder(lt)
    ensures StrictlyAscending(r, lt)
    ensures forall y :: y in r <==> y in xs
  {
    if |xs| == 0 then []
    else
      assert forall y :: y in xs <==> y == xs[0] || y in xs[1..];
      Insert(SortedDistinct(xs[1..], lt), xs[0], lt)
  }

  /** A strictly ascending list has no repeated element. */
  lemma AscendingDistinct<T(!new)>(xs: seq<T>, lt: (T, T) -> bool)
    requires Irreflexive(lt)
    requires StrictlyAscending(xs, lt)
    ensures forall i, j :: 0 <= i < j < |xs| ==> xs[i] != xs[j]
  {
  }

  /**
   Two strictly ascending lists with the same elements are the same list:
   the ascending distinct list of a collection is unique.
   */
  lemma {:induction false} AscendingUnique<T(!new)>(a: seq<T>, b: seq<T>, lt: (T, T) -> bool)
    requires StrictTotalOrder(lt)
    requires StrictlyAscending(a, lt) && StrictlyAscending(b, lt)
    requires forall y :: y in a <==> y in b
    ensures a == b
  {
    if |b| > 0 {
      assert b[0] in b;
    }
    if |a| == 0 {
    } else {
      assert a[0] in a;
      assert |b| > 0;
      assert b[0] in b;
      var i :| 0 <= i < |a| && a[i] == b[0];
      var j :| 0 <= j < |b| && b[j] == a[0];
      assert a[0] == b[0];
      forall y ensures y in a[1..] <==> y in b[1..] {
        if y in a[1..] {
          var k :| 1 <= k < |a| && a[k] == y;
          assert lt(a[0], y) && y != b[0];
          assert y in b;
          var m :| 0 <= m < |b| && b[m] == y;
          assert b[1..][m - 1] == y;
        }
        if y in b[1..] {
          var k :| 1 <= k < |b| && b[k] == y;
          assert lt(b[0], y) && y != a[0];
          assert y in a;
          var m :| 0 <= m < |a| && a[m] == y;
          assert a[1..][m - 1] == y;
        }
      }
      AscendingUnique(a[1..], b[1..], lt);
      assert a == [a[0]] + a[1..];
      assert b == [b[0]] + b[1..];
    }
  }

  // ---------------------------------------------------------------------
  // Python's ordering of `str`: lexicographic by code point, a proper
  // prefix ordered first.

  predicate StringLess(a: string, b: string) {
    if |a| == 0 then |b| > 0
    else if |b| == 0 then false
    else if a[0] != b[0] then a[0] < b[0]
    else StringLess(a[1..], b[1..])
  }

  lemma {:induction false} StringLessIrreflexive(a: string)
    ensures !StringLess(a, a)
  {
    if |a| > 0 {
      StringLessIrreflexive(a[1..]);
    }
  }

  lemma {:induction false} StringLessTransitive(a: string, b: string, c: string)
    requires StringLess(a, b) && StringLess(b, c)
    ensures StringLess(a, c)
  {
    if |a| > 0 && |b| > 0 && |c| > 0 && a[0] == b[0] && b[0] == c[0] {
      StringLessTransitive(a[1..], b[1..], c[1..]);
    }
  }

  lemma {:induction false} StringLessTrichotomous(a: string, b: string)
    ensures a == b || StringLess(a, b) || StringLess(b, a)
  {
    if |a| > 0 && |b| > 0 && a[0] == b[0] {
      StringLessTrichotomous(a[1..], b[1..]);
      if a[1..] == b[1..] {
        assert a == [a[0]] + a[1..] && b == [b[0]] + b[1..];
      }
    }
  }

  lemma StringLessIsStrictTotalOrder()
    ensures StrictTotalOrder(StringLess)
  {
    forall x ensures !StringLess(x, x) {
      StringLessIrreflexive(x);
    }
    forall x, y, z | StringLess(x, y) && StringLess(y, z) ensures StringLess(x, z) {
      StringLessTransitive(x, y, z);
    }
    forall x, y ensures x == y || StringLess(x, y) || StringLess(y, x) {
      StringLessTrichotomous(x, y);
    }
  }

  // ---------------------------------------------------------------------
  // The natural order of integers (dates are day ordinals).

  predicate IntLess(a: int, b: int) {
    a < b
  }

  lemma IntLessIsStrictTotalOrder()
    ensures StrictTotalOrder(IntLess)
  {
  }
}
