/**
 * Python's ordering of `str` values (code point by code point, a proper
 * prefix first), strictly sorted sequences of names, and `sorted()` of a set
 * of distinct names. The batch driver walks file names in this order and the
 * summary takes its first and last date keys from it.
 */
module Ordering {

  /** Python's `a < b` on strings. */
  predicate StrLt(a: string, b: string) {
    if a == [] then b != []
    else if b == [] then false
    else a[0] < b[0] || (a[0] == b[0] && StrLt(a[1..], b[1..]))
  }

  lemma {:induction false} StrLtIrreflexive(a: string)
    ensures !StrLt(a, a)
  {
    if a != [] {
      StrLtIrreflexive(a[1..]);
    }
  }

  lemma {:induction false} StrLtTransitive(a: string, b: string, c: string)
    requires StrLt(a, b) && StrLt(b, c)
    ensures StrLt(a, c)
  {
    if a != [] && b != [] && c != [] && a[0] == b[0] == c[0] {
      StrLtTransitive(a[1..], b[1..], c[1..]);
    }
  }

  /** Two different strings are always ordered one way or the other. */
  lemma {:induction false} StrLtTotal(a: string, b: string)
    requires a != b
    ensures StrLt(a, b) || StrLt(b, a)
  {
    if a != [] && b != [] && a[0] == b[0] {
      assert a == [a[0]] + a[1..] && b == [b[0]] + b[1..];
      StrLtTotal(a[1..], b[1..]);
    }
  }

  lemma StrLtAsymmetric(a: string, b: string)
    requires StrLt(a, b)
    ensures !StrLt(b, a)
  {
    if StrLt(b, a) {
      StrLtTransitive(a, b, a);
      StrLtIrreflexive(a);
    }
  }

  /** Ascending without repetitions, as `sorted()` leaves the distinct names of a directory. */
  predicate StrictlySorted(xs: seq<string>) {
    forall i, j | 0 <= i < j < |xs| :: StrLt(xs[i], xs[j])
  }

  /** `xs` lists exactly the members of `ks`. */
  ghost predicate Enumerates(xs: seq<string>, ks: set<string>) {
    forall y :: y in xs <==> y in ks
  }

  /** Inserts a new name at its place in a strictly sorted sequence. */
  function Insert(xs: seq<string>, x: string): (r: seq<string>)
    requires StrictlySorted(xs) && x !in xs
    ensures StrictlySorted(r)
    ensures forall y :: y in r <==> y in xs || y == x
    ensures |r| == |xs| + 1
  {
    if xs == [] then [x]
    else if StrLt(x, xs[0]) then
      var r := [x] + xs;
      assert StrictlySorted(r) by {
        forall i, j | 0 <= i < j < |r|
          ensures StrLt(r[i], r[j])
        {
          if i == 0 && j > 1 {
            StrLtTransitive(x, xs[0], xs[j - 1]);
          }
        }
      }
      r
    else
      StrLtTotal(x, xs[0]);
      var rest := Insert(xs[1..], x);
      assert forall y | y in rest :: StrLt(xs[0], y);
      [xs[0]] + rest
  }

  /** Two strictly sorted listings of the same names are the same sequence. */
  lemma {:induction false} SortedUnique(xs: seq<string>, ys: seq<string>)
    requires StrictlySorted(xs) && StrictlySorted(ys)
    requires forall y :: y in xs <==> y in ys
    ensures xs == ys
  {
    if xs != [] {
      assert xs[0] in ys;
    }
    if ys != [] {
      assert ys[0] in xs;
    }
    if xs != [] && ys != [] {
      if xs[0] != ys[0] {
        var i :| 0 <= i < |ys| && ys[i] == xs[0];
        var j :| 0 <= j < |xs| && xs[j] == ys[0];
        assert StrLt(xs[0], xs[j]);
        StrLtAsymmetric(xs[0], ys[0]);
      } else {
        forall y
          ensures y in xs[1..] <==> y in ys[1..]
        {
          if y in xs[1..] {
            TailMember(xs, ys, y);
          }
          if y in ys[1..] {
            TailMember(ys, xs, y);
          }
        }
        SortedUnique(xs[1..], ys[1..]);
      }
    }
  }

  lemma TailMember(xs: seq<string>, ys: seq<string>, y: string)
    requires StrictlySorted(xs) && xs != [] && ys != [] && xs[0] == ys[0]
    requires y in xs[1..] && y in ys
    ensures y in ys[1..]
  {
    var k :| 0 <= k < |xs[1..]| && xs[1..][k] == y;
    assert StrLt(xs[0], xs[k + 1]);
    StrLtIrreflexive(y);
    var m :| 0 <= m < |ys| && ys[m] == y;
    assert ys[1..][m - 1] == y;
  }

  lemma {:induction false} SortedListingExists(ks: set<string>)
    ensures exists xs :: StrictlySorted(xs) && Enumerates(xs, ks)
    decreases ks
  {
    if ks == {} {
      assert StrictlySorted([]) && Enumerates([], ks);
    } else {
      var k :| k in ks;
      SortedListingExists(ks - {k});
      var xs :| StrictlySorted(xs) && Enumerates(xs, ks - {k});
      var r := Insert(xs, k);
      assert StrictlySorted(r) && Enumerates(r, ks);
    }
  }

  /** `sorted(ks)`: the unique strictly sorted listing of a finite set of names. */
  ghost function Sorted(ks: set<string>): (xs: seq<string>)
    ensures StrictlySorted(xs) && Enumerates(xs, ks)
  {
    SortedListingExists(ks);
    var xs :| StrictlySorted(xs) && Enumerates(xs, ks);
    xs
  }

  /** The first element of a sorted listing is the least name and the last the greatest. */
  lemma SortedEnds(xs: seq<string>, y: string)
    requires StrictlySorted(xs) && y in xs
    ensures y == xs[0] || StrLt(xs[0], y)
    ensures y == xs[|xs| - 1] || StrLt(y, xs[|xs| - 1])
  {
  }

  /** A sorted listing has one element per name: `len(sorted(ks)) == len(ks)`. */
  lemma {:induction false} SortedLength(xs: seq<string>, ks: set<string>)
    requires StrictlySorted(xs) && Enumerates(xs, ks)
    ensures |xs| == |ks|
    decreases |xs|
  {
    if xs == [] {
      assert forall y :: y !in ks;
      assert ks == {};
    } else {
      var x := xs[|xs| - 1];
      var ys := xs[..|xs| - 1];
      StrLtIrreflexive(x);
      assert x !in ys;
      assert forall y :: y in ys <==> y in xs && y != x;
      SortedLength(ys, ks - {x});
    }
  }

  /** Builds `sorted(ks)` by inserting the names one at a time. */
  method SortedNames(ks: set<string>) returns (xs: seq<string>)
    ensures xs == Sorted(ks)
  {
    xs := [];
    var rest := ks;
    while rest != {}
      invariant rest <= ks
      invariant StrictlySorted(xs)
      invariant forall y :: y in xs <==> y in ks && y !in rest
      decreases rest
    {
      var x :| x in rest;
      xs := Insert(xs, x);
      rest := rest - {x};
    }
    SortedUnique(xs, Sorted(ks));
  }
}
