/**
 * The list operations the two wheel registries are built on: C#'s
 * `List.Remove`, which deletes the first occurrence of an element, and the
 * sum of a list of loads.
 */
module Registries {

  /** `List.Remove(x)`: the list without its first occurrence of `x`, or the list itself when `x` is absent. */
  function RemoveFirst<T(==)>(s: seq<T>, x: T): seq<T>
  {
    if s == [] then []
    else if s[0] == x then s[1..]
    else [s[0]] + RemoveFirst(s[1..], x)
  }

  /** The position of the first occurrence of `x`. */
  function IndexOf<T(==)>(s: seq<T>, x: T): (i: nat)
    requires x in s
    ensures i < |s| && s[i] == x
    ensures forall j :: 0 <= j < i ==> s[j] != x
  {
    if s[0] == x then 0 else 1 + IndexOf(s[1..], x)
  }

  predicate NoDuplicates<T(==)>(s: seq<T>)
  {
    forall i, j :: 0 <= i < j < |s| ==> s[i] != s[j]
  }

  /**
   * Removing `x` cuts the list at its first occurrence of `x`: every other
   * element stays, in order, and the list is one shorter. An absent `x`
   * leaves the list as it is.
   */
  lemma {:induction false} RemoveFirstCutsAtIndex<T>(s: seq<T>, x: T)
    ensures x in s ==> RemoveFirst(s, x) == s[..IndexOf(s, x)] + s[IndexOf(s, x) + 1..]
    ensures x !in s ==> RemoveFirst(s, x) == s
  {
    if s != [] && s[0] != x {
      var t := s[1..];
      RemoveFirstCutsAtIndex(t, x);
      assert s == [s[0]] + t;
      assert x in s <==> x in t;
      if x in t {
        var i := IndexOf(t, x);
        assert IndexOf(s, x) == 1 + i;
        assert s[..1 + i] == [s[0]] + t[..i];
        assert s[1 + i + 1..] == t[i + 1..];
      }
    }
  }

  /** Removing `x` from a list without duplicates leaves no `x` and keeps it free of duplicates. */
  lemma RemoveFirstFromDistinct<T>(s: seq<T>, x: T)
    requires NoDuplicates(s)
    ensures x !in RemoveFirst(s, x)
    ensures NoDuplicates(RemoveFirst(s, x))
    ensures |RemoveFirst(s, x)| == if x in s then |s| - 1 else |s|
    ensures forall y :: y != x ==> (y in RemoveFirst(s, x) <==> y in s)
  {
    RemoveFirstCutsAtIndex(s, x);
    if x in s {
      var i := IndexOf(s, x);
      var r := s[..i] + s[i + 1..];
      forall a, b | 0 <= a < b < |r| ensures r[a] != r[b] {
        var a' := if a < i then a else a + 1;
        var b' := if b < i then b else b + 1;
        assert r[a] == s[a'] && r[b] == s[b'];
      }
      forall k | 0 <= k < |r| ensures r[k] != x {
        var k' := if k < i then k else k + 1;
        assert r[k] == s[k'];
      }
      forall y | y != x && y in s ensures y in r {
        var k :| 0 <= k < |s| && s[k] == y;
        if k < i { assert r[k] == y; } else { assert k > i; assert r[k - 1] == y; }
      }
    }
  }

  /** Appending an element that is absent and removing it again gives back the list. */
  lemma {:induction false} AppendThenRemove<T>(s: seq<T>, x: T)
    requires x !in s
    ensures RemoveFirst(s + [x], x) == s
  {
    if s != [] {
      assert (s + [x])[1..] == s[1..] + [x];
      AppendThenRemove(s[1..], x);
    }
  }

  /** Appending an absent element keeps a list free of duplicates. */
  lemma AppendDistinct<T>(s: seq<T>, x: T)
    requires NoDuplicates(s) && x !in s
    ensures NoDuplicates(s + [x])
  {
  }

  /** The sum of a list of reals, added from the front as the registries' loops do. */
  function Sum(xs: seq<real>): real
  {
    if xs == [] then 0.0 else Sum(xs[..|xs| - 1]) + xs[|xs| - 1]
  }

  /** Sums add up over concatenation. */
  lemma {:induction false} SumConcat(xs: seq<real>, ys: seq<real>)
    ensures Sum(xs + ys) == Sum(xs) + Sum(ys)
    decreases |ys|
  {
    if ys == [] {
      assert xs + ys == xs;
    } else {
      var ys' := ys[..|ys| - 1];
      assert (xs + ys)[..|xs + ys| - 1] == xs + ys';
      SumConcat(xs, ys');
      assert Sum(xs + ys) == Sum(xs + ys') + ys[|ys| - 1];
    }
  }

  /** A list is its part before `i`, element `i` and its part after `i`. */
  lemma SplitAt<T>(xs: seq<T>, i: nat)
    requires i < |xs|
    ensures xs == (xs[..i] + [xs[i]]) + xs[i + 1..]
  {
  }

  /** Taking out element `i` takes its value out of the sum. */
  lemma SumWithout(xs: seq<real>, i: nat)
    requires i < |xs|
    ensures Sum(xs[..i] + xs[i + 1..]) == Sum(xs) - xs[i]
  {
    var a, m, b := xs[..i], [xs[i]], xs[i + 1..];
    SplitAt(xs, i);
    assert Sum(m) == xs[i] by {
      assert m[..0] == [];
    }
    calc {
      Sum(xs);
      { SumConcat(a + m, b); }
      Sum(a + m) + Sum(b);
      { SumConcat(a, m); }
      Sum(a) + xs[i] + Sum(b);
      { SumConcat(a, b); }
      Sum(a + b) + xs[i];
    }
  }
}
