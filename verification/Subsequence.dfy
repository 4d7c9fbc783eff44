/** Order-preserving subsequences, read from the end because histories grow at the end. */
module Subsequence {

  predicate IsSub<T(==)>(a: seq<T>, b: seq<T>)
    decreases |b|
  {
    a == [] ||
    (b != [] &&
     ((a[|a| - 1] == b[|b| - 1] && IsSub(a[..|a| - 1], b[..|b| - 1])) || IsSub(a, b[..|b| - 1])))
  }

  /** Both sides may grow by the same element, and the right side by any. */
  lemma Grow<T>(a: seq<T>, b: seq<T>, x: T)
    requires IsSub(a, b)
    ensures IsSub(a, b + [x]) && IsSub(a + [x], b + [x])
  {
    assert (a + [x])[..|a|] == a && (b + [x])[..|b|] == b;
  }

  lemma {:induction false} Reflexive<T>(a: seq<T>)
    ensures IsSub(a, a)
  {
    if a != [] {
      Reflexive(a[..|a| - 1]);
    }
  }

  lemma {:induction false} Transitive<T>(a: seq<T>, b: seq<T>, c: seq<T>)
    requires IsSub(a, b) && IsSub(b, c)
    ensures IsSub(a, c)
    decreases |c|
  {
    if a != [] {
      var b', c' := b[..|b| - 1], c[..|c| - 1];
      if IsSub(b, c') {
        Transitive(a, b, c');
      } else if IsSub(a, b') {
        Transitive(a, b', c');
      } else {
        Transitive(a[..|a| - 1], b', c');
      }
    }
  }

  lemma {:induction false} Prefix<T>(a: seq<T>, b: seq<T>)
    ensures IsSub(a, a + b)
    decreases |b|
  {
    if b == [] {
      assert a + b == a;
      Reflexive(a);
    } else {
      var b', x := b[..|b| - 1], b[|b| - 1];
      Prefix(a, b');
      Grow(a, a + b', x);
      assert a + b == a + b' + [x];
    }
  }
}
