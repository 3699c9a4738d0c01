/** Powers and positional notation over a base. */
module Powers {
  function Pow(b: nat, e: nat): nat {
    if e == 0 then 1 else b * Pow(b, e - 1)
  }

  lemma {:induction false} PowAdd(b: nat, x: nat, y: nat)
    ensures Pow(b, x + y) == Pow(b, x) * Pow(b, y)
  {
    if x != 0 {
      PowAdd(b, x - 1, y);
      assert x + y - 1 == x - 1 + y;
      MulAssoc(b, Pow(b, x - 1), Pow(b, y));
    }
  }

  lemma MulAssoc(a: int, b: int, c: int)
    ensures a * b * c == a * (b * c)
  {}

  lemma MulMono(x: int, y: int, a: int)
    requires x <= y && a >= 0
    ensures x * a <= y * a
  {
    assert y * a == x * a + (y - x) * a;
  }

  lemma {:induction false} PowPow(b: nat, x: nat, y: nat)
    ensures Pow(Pow(b, x), y) == Pow(b, x * y)
  {
    if y != 0 {
      PowPow(b, x, y - 1);
      assert x * y == x + x * (y - 1);
      PowAdd(b, x, x * (y - 1));
    } else {
      assert x * y == 0;
    }
  }

  lemma {:induction false} PowPos(b: nat, e: nat)
    requires b >= 1
    ensures Pow(b, e) >= 1
  {
    if e != 0 {
      PowPos(b, e - 1);
      MulMono(1, b, Pow(b, e - 1));
    }
  }

  lemma {:induction false} PowMonoBase(a: nat, b: nat, e: nat)
    requires a <= b
    ensures Pow(a, e) <= Pow(b, e)
  {
    if e != 0 {
      PowMonoBase(a, b, e - 1);
      MulMono(a, b, Pow(a, e - 1));
      MulMono(Pow(a, e - 1), Pow(b, e - 1), b);
    }
  }

  lemma {:induction false} PowGrows(b: nat, x: nat, y: nat)
    requires b >= 2 && x < y
    ensures Pow(b, x) < Pow(b, y)
    decreases y
  {
    PowPos(b, y - 1);
    MulMono(2, b, Pow(b, y - 1));
    if x < y - 1 {
      PowGrows(b, x, y - 1);
    }
  }

  // ----- digits, most significant first -----

  ghost predicate AreDigits(ds: seq<nat>, b: nat) {
    forall i :: 0 <= i < |ds| ==> ds[i] < b
  }

  // The number the digits spell in base b.
  function Value(ds: seq<nat>, b: nat): nat {
    if ds == [] then 0 else Value(ds[..|ds| - 1], b) * b + ds[|ds| - 1]
  }

  // The digits of v with no zero in front; none at all for zero.
  function Digits(v: nat, b: nat): (ds: seq<nat>)
    requires b >= 2
  {
    if v == 0 then [] else Smaller(v, b); Digits(v / b, b) + [v % b]
  }

  lemma Smaller(v: nat, b: nat)
    requires b >= 2 && v > 0
    ensures v / b < v
  {
    DivMod(v, b);
    MulMono(2, b, v / b);
  }

  lemma DivMod(v: nat, b: nat)
    requires b >= 1
    ensures v == v / b * b + v % b && v % b < b
  {}

  lemma DivModOf(q: nat, b: nat, r: nat)
    requires r < b
    ensures (q * b + r) / b == q && (q * b + r) % b == r
  {
    var v := q * b + r;
    DivMod(v, b);
    assert v / b * b - q * b == (v / b - q) * b;
    if v / b > q {
      MulMono(1, v / b - q, b);
    } else if v / b < q {
      MulMono(v / b - q, -1, b);
    }
  }

  lemma {:induction false} ValueConcat(x: seq<nat>, y: seq<nat>, b: nat)
    ensures Value(x + y, b) == Value(x, b) * Pow(b, |y|) + Value(y, b)
  {
    if y == [] {
      assert x + y == x;
    } else {
      var z := y[..|y| - 1];
      ValueConcat(x, z, b);
      assert (x + y)[..|x + y| - 1] == x + z;
      Distribute(Value(x, b), Pow(b, |z|), Value(z, b), b, y[|y| - 1]);
    }
  }

  lemma Distribute(x: nat, p: nat, z: nat, b: nat, d: nat)
    ensures (x * p + z) * b + d == x * (b * p) + (z * b + d)
  {
    assert x * p * b == x * (b * p);
  }

  lemma {:induction false} ValueBound(ds: seq<nat>, b: nat)
    requires AreDigits(ds, b)
    ensures Value(ds, b) < Pow(b, |ds|)
  {
    if ds != [] {
      var t := ds[..|ds| - 1];
      ValueBound(t, b);
      OneMoreDigit(Value(t, b), Pow(b, |t|), b, ds[|ds| - 1]);
    }
  }

  lemma OneMoreDigit(v: nat, p: nat, b: nat, d: nat)
    requires v < p && d < b
    ensures v * b + d < b * p
  {
    MulMono(v + 1, p, b);
  }

  lemma {:induction false} DigitsSpell(v: nat, b: nat)
    requires b >= 2
    ensures Value(Digits(v, b), b) == v && AreDigits(Digits(v, b), b)
    ensures v > 0 ==> Digits(v, b) != [] && Digits(v, b)[0] != 0
  {
    if v > 0 {
      Smaller(v, b);
      DigitsSpell(v / b, b);
      DivMod(v, b);
      var ds := Digits(v, b);
      assert ds[..|ds| - 1] == Digits(v / b, b);
      if v / b == 0 {
        assert v / b * b == 0;
      }
    }
  }

  // Digits without a leading zero are the digits of their value.
  lemma {:induction false} DigitsUnique(ds: seq<nat>, b: nat)
    requires b >= 2 && AreDigits(ds, b) && (ds != [] ==> ds[0] != 0)
    ensures Digits(Value(ds, b), b) == ds
    ensures ds != [] ==> Value(ds, b) > 0
  {
    if ds != [] {
      var t, d := ds[..|ds| - 1], ds[|ds| - 1];
      DigitsUnique(t, b);
      DivModOf(Value(t, b), b, d);
      assert ds == t + [d];
      if t != [] {
        MulMono(1, Value(t, b), b);
      }
    }
  }

  lemma {:induction false} ValueZeros(z: nat, ds: seq<nat>, b: nat)
    ensures Value(Zeros(z) + ds, b) == Value(ds, b)
  {
    ValueConcat(Zeros(z), ds, b);
    ZeroValue(z, b);
  }

  lemma {:induction false} ZeroValue(z: nat, b: nat)
    ensures Value(Zeros(z), b) == 0
  {
    if z != 0 {
      assert Zeros(z)[..z - 1] == Zeros(z - 1);
      ZeroValue(z - 1, b);
    }
  }

  function Zeros(n: nat): (z: seq<nat>)
    ensures |z| == n && forall i :: 0 <= i < n ==> z[i] == 0
  {
    seq(n, _ => 0)
  }
}
