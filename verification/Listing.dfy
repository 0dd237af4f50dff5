/** Directory listings. */
module Listing {

  function Least(a: nat, b: nat): nat
  {
    if a <= b then a else b
  }

  /** A directory lists each name once. */
  ghost predicate Distinct(listing: seq<string>)
  {
    forall i, j :: 0 <= i < j < |listing| ==> listing[i] != listing[j]
  }

  /** Python's `a < b` on strings. */
  predicate StrLess(a: string, b: string)
  {
    b != [] && (a == [] || a[0] < b[0] || (a[0] == b[0] && StrLess(a[1..], b[1..])))
  }

  lemma {:induction false} StrIrreflexive(a: string)
    ensures !StrLess(a, a)
  {
    if a != [] {
      StrIrreflexive(a[1..]);
    }
  }

  lemma {:induction false} StrTrichotomy(a: string, b: string)
    ensures a == b || StrLess(a, b) || StrLess(b, a)
    ensures !(StrLess(a, b) && StrLess(b, a))
  {
    if a != [] && b != [] && a[0] == b[0] {
      StrTrichotomy(a[1..], b[1..]);
      assert a == [a[0]] + a[1..] && b == [b[0]] + b[1..];
    }
  }

  lemma {:induction false} StrTransitive(a: string, b: string, c: string)
    requires StrLess(a, b) && StrLess(b, c)
    ensures StrLess(a, c)
  {
    if a != [] && a[0] == b[0] && b[0] == c[0] {
      StrTransitive(a[1..], b[1..], c[1..]);
    }
  }

  /** The texts agree up to this place, and there the first one ends or has the smaller character. */
  predicate SmallerAt(a: string, b: string, i: nat)
  {
    i <= |a| && i < |b| && a[..i] == b[..i] && (i == |a| || a[i] < b[i])
  }

  /** That order is the one of dictionaries. */
  lemma {:induction false} StrLessForm(a: string, b: string)
    ensures StrLess(a, b) <==> exists i: nat :: SmallerAt(a, b, i)
  {
    if b != [] && a != [] && a[0] == b[0] {
      StrLessForm(a[1..], b[1..]);
      forall i: nat ensures SmallerAt(a[1..], b[1..], i) <==> SmallerAt(a, b, i + 1) {
        SmallerLater(a, b, i);
      }
      assert !SmallerAt(a, b, 0);
      forall i: nat | SmallerAt(a, b, i) ensures SmallerAt(a[1..], b[1..], i - 1) {
      }
    } else if b != [] {
      assert StrLess(a, b) ==> SmallerAt(a, b, 0);
    }
  }

  lemma {:induction false} SmallerLater(a: string, b: string, i: nat)
    requires a != [] && b != [] && a[0] == b[0]
    ensures SmallerAt(a[1..], b[1..], i) <==> SmallerAt(a, b, i + 1)
  {
    if i + 1 <= |a| && i + 1 < |b| {
      assert a[..i + 1] == [a[0]] + a[1..][..i] && b[..i + 1] == [b[0]] + b[1..][..i];
    }
  }
}
