/** Result types shared by the modules, and the facts about division they need. */
module Common {

  datatype Option<+T> = None | Some(value: T)

  datatype Result<+T, +E> = Ok(value: T) | Err(error: E)

  function CeilDiv(a: nat, b: nat): nat
    requires 0 < b
  {
    (a + b - 1) / b
  }

  lemma MulMonotone(a: nat, p: nat, q: nat)
    requires p <= q
    ensures a * p <= a * q
  {
    assert a * q == a * p + a * (q - p);
  }

  lemma DivIs(x: int, b: int, q: int, r: int)
    requires 0 <= r < b && x == b * q + r
    ensures x / b == q
  {
    var d := x / b - q;
    assert b * d == r - x % b by { assert x == b * (x / b) + x % b; }
    assert d >= 1 ==> b * d >= b;
    assert d <= -1 ==> b * d <= -b;
  }

  lemma DivStep(a: nat, b: nat)
    requires 0 < b
    ensures (a + b) / b == a / b + 1
  {
    var q, r := (a + b) / b, (a + b) % b;
    assert a == b * (q - 1) + r;
    DivIs(a, b, q - 1, r);
  }

  lemma DivMonotone(a: nat, b: nat, d: nat)
    requires d >= 1 && a <= b
    ensures a / d <= b / d
  {
    var p, q := a / d, b / d;
    assert d * p <= a && b < d * q + d;
    if p > q { assert d * p >= d * q + d by { MulMonotone(d, q + 1, p); } }
  }

  lemma CeilMonotone(a: nat, b: nat, d: nat)
    requires d >= 1 && a <= b
    ensures CeilDiv(a, d) <= CeilDiv(b, d)
  {
    DivMonotone(a + d - 1, b + d - 1, d);
  }

  lemma CeilStep(a: nat, d: nat)
    requires d >= 1 && a >= 1
    ensures CeilDiv(a, d) == 1 + if a <= d then 0 else CeilDiv(a - d, d)
  {
    DivStep(a - 1, d);
    if a <= d { DivIs(a - 1, d, 0, a - 1); } else { assert a - d + d - 1 == a - 1; }
  }
}
