module Base {
  datatype Option<+T> = None | Some(value: T)

  lemma Member<T>(s: set<T>) returns (x: T)
    requires s != {}
    ensures x in s
  {
    x :| x in s;
  }

  lemma Outsider<T>(a: set<T>, b: set<T>) returns (x: T)
    requires !(a <= b)
    ensures x in a && x !in b
  {
    x :| x in a && x !in b;
  }

  // ---- Division by a variable ----

  lemma MulStep(d: nat, a: int, b: int)
    requires a < b
    ensures d * a + d <= d * b
  {
    assert d * (b - a - 1) >= 0;
    assert d * b == d * a + d + d * (b - a - 1);
  }

  lemma Quotient(a: nat, d: nat, q: nat)
    requires d > 0 && d * q <= a < d * q + d
    ensures a / d == q
  {
    var e := a / d;
    assert d * e <= a < d * e + d;
    if e < q { MulStep(d, e, q); } else if q < e { MulStep(d, q, e); }
  }

  lemma DivMonotone(a: nat, b: nat, d: nat)
    requires d > 0 && a <= b
    ensures a / d <= b / d
  {
    var e, f := a / d, b / d;
    assert d * e <= a < d * e + d;
    assert d * f <= b < d * f + d;
    if f < e { MulStep(d, f, e); }
  }

  lemma DivStep(a: nat, d: nat)
    requires d > 0 
    ensures (a + d) / d == a / d + 1
  {
    var e := a / d;
    assert d * e <= a < d * e + d;
    assert d * (e + 1) == d * e + d;
    Quotient(a + d, d, e + 1);
  }
}
