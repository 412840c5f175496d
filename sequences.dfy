/**
 * Sequences used as insertion-ordered sets: the iteration order of a
 * JavaScript `Map` or `Set`, from which `delete` removes one key.
 */
module Sequences {
  /** No element occurs twice. */
  ghost predicate Distinct<T>(s: seq<T>) {
    forall i, j :: 0 <= i < j < |s| ==> s[i] != s[j]
  }

  /** `s` with `c` taken out: what `delete(c)` does to a `Map`'s or `Set`'s iteration order. */
  function Without<T(==, !new)>(s: seq<T>, c: T): (r: seq<T>)
    ensures forall x :: x in r <==> x in s && x != c
    ensures |r| <= |s|
  {
    if s == [] then []
    else if s[0] == c then Without(s[1..], c)
    else [s[0]] + Without(s[1..], c)
  }

  lemma {:induction false} WithoutDistinct<T(!new)>(s: seq<T>, c: T)
    requires Distinct(s)
    ensures Distinct(Without(s, c))
  {
    if s != [] {
      assert Distinct(s[1..]);
      WithoutDistinct(s[1..], c);
      if s[0] != c {
        assert s[0] !in s[1..];
        assert s[0] !in Without(s[1..], c);
        var r := [s[0]] + Without(s[1..], c);
        forall i, j | 0 <= i < j < |r| ensures r[i] != r[j] {
          if i == 0 {
            assert r[j] in Without(s[1..], c);
          } else {
            assert r[i] == Without(s[1..], c)[i - 1];
            assert r[j] == Without(s[1..], c)[j - 1];
          }
        }
      }
    }
  }

  lemma {:induction false} WithoutAbsent<T(!new)>(s: seq<T>, c: T)
    requires c !in s
    ensures Without(s, c) == s
  {
    if s != [] {
      WithoutAbsent(s[1..], c);
    }
  }

  lemma {:induction false} WithoutConcat<T(!new)>(a: seq<T>, b: seq<T>, c: T)
    ensures Without(a + b, c) == Without(a, c) + Without(b, c)
  {
    if a != [] {
      assert (a + b)[1..] == a[1..] + b;
      WithoutConcat(a[1..], b, c);
    } else {
      assert a + b == b;
    }
  }
}
