/**
 * List operations the library uses on its registries: `unique` (keep the
 * first occurrence of each element) and removal by identity
 * (`list.filter((t) => t !== x)`).
 */
module Lists {

  ghost predicate NoDup<T>(s: seq<T>) {
    forall i, j :: 0 <= i < j < |s| ==> s[i] != s[j]
  }

  /** `unique(s)`: the distinct elements of `s` in order of first occurrence. */
  function Unique<T(==, !new)>(s: seq<T>): (r: seq<T>)
    ensures NoDup(r)
    ensures forall x :: x in r <==> x in s
    ensures |r| <= |s|
  {
    if |s| == 0 then []
    else
      var u := Unique(s[..|s| - 1]);
      var x := s[|s| - 1];
      assert forall y :: y in s <==> y in s[..|s| - 1] || y == x;
      if x in u then u else u + [x]
  }

  /** The position of the first occurrence of `x` in `s`. */
  function FirstIndex<T(==)>(s: seq<T>, x: T): (k: nat)
    requires x in s
    ensures k < |s| && s[k] == x && x !in s[..k]
  {
    if s[0] == x then 0
    else
      var k := 1 + FirstIndex(s[1..], x);
      assert s[..k] == [s[0]] + s[1..][..k - 1];
      k
  }

  /** The first occurrence of an element of `a` is the same in `a + b`. */
  lemma FirstIndexOfPrefix<T>(a: seq<T>, b: seq<T>, x: T)
    requires x in a
    ensures FirstIndex(a + b, x) == FirstIndex(a, x)
  {
    var k, k' := FirstIndex(a, x), FirstIndex(a + b, x);
    assert (a + b)[k] == x && (a + b)[..k] == a[..k];
  }

  /** `unique` keeps elements in the order of their first occurrence in the input. */
  lemma {:induction false} UniqueKeepsFirstOccurrenceOrder<T(!new)>(s: seq<T>)
    ensures forall i, j :: 0 <= i < j < |Unique(s)| ==> FirstIndex(s, Unique(s)[i]) < FirstIndex(s, Unique(s)[j])
  {
    if |s| > 0 {
      var p, x := s[..|s| - 1], s[|s| - 1];
      assert s == p + [x];
      UniqueKeepsFirstOccurrenceOrder(p);
      var u, r := Unique(p), Unique(s);
      forall i, j | 0 <= i < j < |r|
        ensures FirstIndex(s, r[i]) < FirstIndex(s, r[j])
      {
        assert r[i] == u[i];
        FirstIndexOfPrefix(p, [x], r[i]);
        if j < |u| {
          assert r[j] == u[j];
          FirstIndexOfPrefix(p, [x], r[j]);
        } else {
          assert r[j] == x && x !in p;
          assert FirstIndex(p, r[i]) < |p|;
        }
      }
    }
  }

  /** A list without duplicates is its own `unique`. */
  lemma {:induction false} UniqueOfNoDup<T(!new)>(s: seq<T>)
    requires NoDup(s)
    ensures Unique(s) == s
  {
    if |s| > 0 {
      UniqueOfNoDup(s[..|s| - 1]);
      assert s[|s| - 1] !in s[..|s| - 1];
      assert s[..|s| - 1] + [s[|s| - 1]] == s;
    }
  }

  /** Adding one element to a duplicate-free list: appended only when absent. */
  lemma UniqueAppend<T(!new)>(s: seq<T>, x: T)
    requires NoDup(s)
    ensures Unique(s + [x]) == if x in s then s else s + [x]
  {
    assert (s + [x])[..|s|] == s;
    UniqueOfNoDup(s);
  }

  /** The distinct elements of `a` come first, in their own order, in `unique(a + b)`. */
  lemma {:induction false} UniquePrefix<T(!new)>(a: seq<T>, b: seq<T>)
    ensures Unique(a) <= Unique(a + b)
  {
    if |b| > 0 {
      var b' := b[..|b| - 1];
      UniquePrefix(a, b');
      assert (a + b)[..|a + b| - 1] == a + b';
    } else {
      assert a + b == a;
    }
  }

  /** `s.filter((t) => t !== x)`: remove every occurrence of `x`, keep the rest in order. */
  function Without<T(==, !new)>(s: seq<T>, x: T): (r: seq<T>)
    ensures x !in r
    ensures forall y :: y != x ==> (y in r <==> y in s)
    ensures |r| <= |s|
    ensures x !in s ==> r == s
  {
    if s == [] then []
    else (if s[0] == x then [] else [s[0]]) + Without(s[1..], x)
  }

  lemma {:induction false} WithoutKeepsNoDup<T(!new)>(s: seq<T>, x: T)
    requires NoDup(s)
    ensures NoDup(Without(s, x))
  {
    if s != [] {
      WithoutKeepsNoDup(s[1..], x);
      var r := Without(s, x);
      var rest := Without(s[1..], x);
      assert s[0] !in s[1..];
      assert s[0] !in rest;
    }
  }
}
