/** Subsequences: what is left of a sequence when elements are taken out and the order is kept. */
module Subsequence {
  ghost predicate Sub<T>(a: seq<T>, b: seq<T>) {
    if a == [] then true
    else if b == [] then false
    else (a[|a| - 1] == b[|b| - 1] && Sub(a[..|a| - 1], b[..|b| - 1])) || Sub(a, b[..|b| - 1])
  }

  lemma {:induction false} Refl<T>(a: seq<T>)
    ensures Sub(a, a)
  {
    if a != [] {
      Refl(a[..|a| - 1]);
    }
  }

  lemma Both<T>(a: seq<T>, b: seq<T>, x: T)
    requires Sub(a, b)
    ensures Sub(a + [x], b + [x])
  {
    assert (a + [x])[..|a|] == a && (b + [x])[..|b|] == b;
  }

  lemma Skip<T>(a: seq<T>, b: seq<T>, x: T)
    requires Sub(a, b)
    ensures Sub(a, b + [x])
  {
    assert (b + [x])[..|b|] == b;
  }

  lemma {:induction false} Concat<T>(a: seq<T>, b: seq<T>, c: seq<T>, d: seq<T>)
    requires Sub(a, b) && Sub(c, d)
    ensures Sub(a + c, b + d)
    decreases |d|
  {
    if d == [] {
      assert a + c == a && b + d == b;
    } else {
      var d', x := d[..|d| - 1], d[|d| - 1];
      assert b + d == (b + d') + [x];
      if c != [] && c[|c| - 1] == x && Sub(c[..|c| - 1], d') {
        Concat(a, b, c[..|c| - 1], d');
        Both(a + c[..|c| - 1], b + d', x);
        assert a + c == (a + c[..|c| - 1]) + [x];
      } else {
        Concat(a, b, c, d');
        Skip(a + c, b + d', x);
      }
    }
  }

  lemma {:induction false} Trans<T>(a: seq<T>, b: seq<T>, c: seq<T>)
    requires Sub(a, b) && Sub(b, c)
    ensures Sub(a, c)
    decreases |c|
  {
    if a != [] {
      var c' := c[..|c| - 1];
      if Sub(b, c') {
        Trans(a, b, c');
      } else {
        var b' := b[..|b| - 1];
        if Sub(a, b') {
          Trans(a, b', c');
        } else {
          Trans(a[..|a| - 1], b', c');
        }
      }
    }
  }

  lemma Nothing<T>(b: seq<T>)
    ensures Sub([], b)
  {}

  /** Taking out a middle part. */
  lemma Without<T>(a: seq<T>, b: seq<T>, c: seq<T>)
    ensures Sub(a + c, a + b + c)
  {
    Refl(a);
    Refl(c);
    Nothing(b);
    Concat(a, a, [], b);
    assert a + [] == a;
    Concat(a, a + b, c, c);
  }

  lemma {:induction false} Members<T>(a: seq<T>, b: seq<T>, x: T)
    requires Sub(a, b) && x in a
    ensures x in b
  {
    if a[|a| - 1] == b[|b| - 1] && Sub(a[..|a| - 1], b[..|b| - 1]) {
      if x != a[|a| - 1] {
        assert x in a[..|a| - 1];
        Members(a[..|a| - 1], b[..|b| - 1], x);
      }
    } else {
      Members(a, b[..|b| - 1], x);
    }
  }
}
