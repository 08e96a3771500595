/** Orders, and sorting as Go's `sort.Slice` promises it: a permutation in which no element is below
    an earlier one. Elements that compare equal may come out in any order. */
module Order {
  /** A strict weak order: what `sort.Slice` asks of its comparison. */
  ghost predicate Weak<T(!new)>(less: (T, T) -> bool) {
    && (forall x :: !less(x, x))
    && (forall x, y, z :: less(x, y) && less(y, z) ==> less(x, z))
    && (forall x, y, z :: less(x, z) ==> less(x, y) || less(y, z))
  }

  ghost predicate Sorted<T>(less: (T, T) -> bool, s: seq<T>) {
    forall i, j | 0 <= i < j < |s| :: !less(s[j], s[i])
  }

  ghost predicate StrictlySorted<T>(less: (T, T) -> bool, s: seq<T>) {
    forall i, j | 0 <= i < j < |s| :: less(s[i], s[j])
  }

  method Sort<T(!new)>(less: (T, T) -> bool, s: seq<T>) returns (r: seq<T>)
    requires Weak(less)
    ensures multiset(r) == multiset(s)
    ensures Sorted(less, r)
  {
    r := [];
    for n := 0 to |s|
      invariant multiset(r) == multiset(s[..n])
      invariant Sorted(less, r)
    {
      assert s[..n + 1] == s[..n] + [s[n]];
      r := Insert(less, r, s[n]);
    }
    assert s[..|s|] == s;
  }

  method Insert<T(!new)>(less: (T, T) -> bool, s: seq<T>, x: T) returns (r: seq<T>)
    requires Weak(less) && Sorted(less, s)
    ensures multiset(r) == multiset(s) + multiset{x}
    ensures Sorted(less, r)
  {
    var i := |s|;
    while i > 0 && less(x, s[i - 1])
      invariant 0 <= i <= |s|
      invariant forall k | i <= k < |s| :: less(x, s[k])
    {
      i := i - 1;
    }
    forall k | 0 <= k < i
      ensures !less(x, s[k])
    {
      assert k < i - 1 ==> !less(s[i - 1], s[k]);
    }
    Inserted(less, s, i, x);
    r := s[..i] + [x] + s[i..];
    assert s == s[..i] + s[i..];
  }

  lemma Inserted<T(!new)>(less: (T, T) -> bool, s: seq<T>, i: nat, x: T)
    requires Weak(less) && Sorted(less, s) && i <= |s|
    requires forall k | 0 <= k < i :: !less(x, s[k])
    requires forall k | i <= k < |s| :: less(x, s[k])
    ensures Sorted(less, s[..i] + [x] + s[i..])
  {
  }

  /** A strictly sorted sequence is determined by its elements. */
  lemma {:induction false} SortedUnique<T(!new)>(less: (T, T) -> bool, a: seq<T>, b: seq<T>)
    requires Weak(less) && StrictlySorted(less, a) && StrictlySorted(less, b)
    requires forall x :: x in a <==> x in b
    ensures a == b
  {
    assert a == [] <==> b == [] by {
      assert a != [] ==> a[0] in b;
      assert b != [] ==> b[0] in a;
    }
    if a != [] {
      assert a[0] in b && b[0] in a;
      var i :| 0 <= i < |b| && b[i] == a[0];
      var j :| 0 <= j < |a| && a[j] == b[0];
      assert a[0] == b[0];
      forall x
        ensures x in a[1..] <==> x in b[1..]
      {
        assert x in a <==> x == a[0] || x in a[1..] by { assert a == [a[0]] + a[1..]; }
        assert x in b <==> x == b[0] || x in b[1..] by { assert b == [b[0]] + b[1..]; }
        assert a[0] !in a[1..];
        assert b[0] !in b[1..];
      }
      SortedUnique(less, a[1..], b[1..]);
      assert a == [a[0]] + a[1..] && b == [b[0]] + b[1..];
    }
  }

  /** Pairwise different, in whatever sense. */
  ghost predicate Apart<T>(apart: (T, T) -> bool, s: seq<T>) {
    forall i, j | 0 <= i < j < |s| :: apart(s[i], s[j])
  }

  /** A permutation keeps the elements, and keeps them apart. */
  lemma Permuted<T(!new)>(apart: (T, T) -> bool, s: seq<T>, r: seq<T>)
    requires multiset(r) == multiset(s) && Apart(apart, s)
    requires (forall x :: !apart(x, x)) && forall x, y :: apart(x, y) ==> apart(y, x)
    ensures Apart(apart, r)
    ensures forall x :: x in r <==> x in s
  {
    forall x
      ensures x in r <==> x in s
    {
      assert x in r <==> x in multiset(r);
      assert x in s <==> x in multiset(s);
    }
    forall i, j | 0 <= i < j < |r|
      ensures apart(r[i], r[j])
    {
      OnceEach(apart, s, r[i]);
      if r[i] == r[j] {
        Twice(r, i, j);
        assert false;
      }
      assert r[i] in s && r[j] in s;
      var k :| 0 <= k < |s| && s[k] == r[i];
      var l :| 0 <= l < |s| && s[l] == r[j];
      assert k != l;
    }
  }

  /** Sorting leaves the elements as they are, and is strict when no two of them compare equal. */
  lemma SortedStrictly<T(!new)>(less: (T, T) -> bool, s: seq<T>, r: seq<T>)
    requires Sorted(less, r) && multiset(r) == multiset(s)
    requires Apart((a, b) => less(a, b) || less(b, a), s)
    requires forall x :: !less(x, x)
    ensures StrictlySorted(less, r)
    ensures forall x :: x in r <==> x in s
  {
    Permuted((a, b) => less(a, b) || less(b, a), s, r);
  }

  lemma Twice<T>(r: seq<T>, i: nat, j: nat)
    requires i < j < |r| && r[i] == r[j]
    ensures multiset(r)[r[i]] >= 2
  {
    assert r == r[..i] + [r[i]] + r[i + 1..j] + [r[j]] + r[j + 1..];
  }

  lemma {:induction false} OnceEach<T(!new)>(apart: (T, T) -> bool, s: seq<T>, x: T)
    requires Apart(apart, s) && forall y :: !apart(y, y)
    ensures multiset(s)[x] <= 1
  {
    if s != [] {
      var n := |s| - 1;
      assert s == s[..n] + [s[n]];
      OnceEach(apart, s[..n], x);
      assert forall k | 0 <= k < n :: apart(s[k], s[n]);
    }
  }

  // ---- Strings, compared byte by byte ----

  predicate Before(a: string, b: string) {
    if b == "" then false
    else if a == "" then true
    else a[0] < b[0] || (a[0] == b[0] && Before(a[1..], b[1..]))
  }

  /** At the first difference `a` has the smaller character, or `a` ends there. */
  lemma {:induction false} BeforeIff(a: string, b: string)
    ensures Before(a, b) <==>
            exists k | 0 <= k <= |a| && k < |b| :: a[..k] == b[..k] && (k == |a| || a[k] < b[k])
  {
    if a == "" || b == "" {
      assert b != "" ==> a[..0] == b[..0];
    } else if a[0] == b[0] {
      BeforeIff(a[1..], b[1..]);
      if k :| 0 <= k <= |a[1..]| && k < |b[1..]| && a[1..][..k] == b[1..][..k] && (k == |a[1..]| || a[1..][k] < b[1..][k]) {
        assert a[..k + 1] == [a[0]] + a[1..][..k] == b[..k + 1];
      }
      if k :| 0 <= k <= |a| && k < |b| && a[..k] == b[..k] && (k == |a| || a[k] < b[k]) {
        assert k > 0;
        assert a[1..][..k - 1] == a[..k][1..] == b[1..][..k - 1];
      }
    } else {
      if a[0] < b[0] {
        assert a[..0] == b[..0];
      }
      if k :| 0 <= k <= |a| && k < |b| && a[..k] == b[..k] && (k == |a| || a[k] < b[k]) {
        assert k > 0 ==> a[..k][0] == b[..k][0];
      }
    }
  }

  lemma {:induction false} BeforeTransitive(a: string, b: string, c: string)
    requires Before(a, b) && Before(b, c)
    ensures Before(a, c)
  {
    if a != "" && a[0] == b[0] == c[0] {
      BeforeTransitive(a[1..], b[1..], c[1..]);
    }
  }

  lemma {:induction false} BeforeTotal(a: string, b: string)
    ensures Before(a, b) || Before(b, a) || a == b
    ensures !(Before(a, b) && Before(b, a))
    ensures !Before(a, a)
  {
    if a != "" && b != "" {
      BeforeTotal(a[1..], b[1..]);
      assert a[1..] == b[1..] && a[0] == b[0] ==> a == b by {
        assert a == [a[0]] + a[1..] && b == [b[0]] + b[1..];
      }
    }
    if a != "" {
      BeforeTotal(a[1..], a[1..]);
    }
  }

  lemma BeforeWeak()
    ensures Weak(Before)
  {
    forall a, b, c
      ensures !Before(a, a)
      ensures Before(a, b) && Before(b, c) ==> Before(a, c)
      ensures Before(a, c) ==> Before(a, b) || Before(b, c)
    {
      BeforeTotal(a, b);
      BeforeTotal(b, c);
      if Before(a, b) && Before(b, c) {
        BeforeTransitive(a, b, c);
      }
      if Before(a, c) && !Before(a, b) {
        if a != b {
          BeforeTransitive(b, a, c);
        }
      }
    }
  }
}
