// Products, quotients and their bounds, kept away from larger proofs.
module Arithmetic {
  function Min(a: int, b: int): int { if a < b then a else b }

  function Cdiv(a: nat, b: nat): nat
    requires b > 0
  {
    (a + b - 1) / b
  }

  lemma CdivBounds(a: nat, b: nat)
    requires b > 0
    ensures Cdiv(a, b) * b - b < a <= Cdiv(a, b) * b
  {
  }

  lemma BlockBounds(n: nat, b: nat)
    requires b > 0
    ensures n / b * b <= n < n / b * b + b
  {
  }

  lemma Product(t: nat, small: nat, large: nat)
    requires small <= large
    ensures t * small <= t * large
  {
  }

  lemma Quotient(i: nat, per: nat, t: nat)
    requires i < t * per
    ensures per > 0 && i / per < t
  {
    assert per > 0;
    assert i / per * per <= i;
    if i / per >= t {
      Product(per, t, i / per);
    }
  }

  lemma Slot(i: nat, per: nat, t: nat)
    requires per > 0
    ensures t * per <= i < t * per + per <==> t == i / per
  {
    var q := i / per;
    assert q * per <= i < q * per + per;
    if t < q {
      Product(per, t + 1, q);
    } else if t > q {
      Product(per, q + 1, t);
    }
  }

  lemma NextStart(step: nat, i: nat, j: nat)
    requires i < j
    ensures i * step + step <= j * step
  {
    Product(step, i + 1, j);
  }

  lemma Multiples(i: int, j: int, b: nat)
    requires b > 0
    ensures i < j <==> i * b < j * b
    ensures i < j <==> i * b + b <= j * b
  {
    if i < j {
      assert (i + 1) * b <= j * b;
    } else {
      assert j * b <= i * b;
    }
  }
}
