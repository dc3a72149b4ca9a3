/** Rounding division and the checked and saturating operations of Rust's unsigned integers. */
module Arith {
  import opened Wrappers

  function CeilDiv(x: nat, d: nat): nat
    requires d > 0
  {
    if x % d == 0 then x / d else x / d + 1
  }

  function SaturatingSub(x: nat, y: nat): nat {
    if x >= y then x - y else 0
  }

  function Saturate(x: nat): nat {
    if x <= U128_MAX then x else U128_MAX
  }

  function Min(x: nat, y: nat): nat {
    if x <= y then x else y
  }

  lemma FloorBounds(x: nat, d: nat)
    requires d > 0
    ensures x / d * d <= x < (x / d + 1) * d
  {
  }

  lemma MulLess(a: nat, b: nat, d: nat)
    requires a * d < b * d
    ensures a < b
  {
    if a >= b { MulMono(b, a, d); }
  }

  lemma MulMono(a: nat, b: nat, d: nat)
    requires a <= b
    ensures a * d <= b * d
  {
  }

  /** `x / d` is the only number whose product with `d` is within `d` below `x`. */
  lemma FloorIs(x: nat, d: nat, f: nat)
    requires d > 0 && f * d <= x < (f + 1) * d
    ensures x / d == f
  {
    FloorBounds(x, d);
    MulLess(f, x / d + 1, d);
    MulLess(x / d, f + 1, d);
  }

  /** `CeilDiv(x, d)` is the least number whose product with `d` reaches `x`. */
  lemma CeilIs(x: nat, d: nat, c: nat)
    requires d > 0
    ensures c * d >= x <==> c >= CeilDiv(x, d)
  {
    var q, r := x / d, x % d;
    assert x == q * d + r;
    if c >= q + 1 {
      MulMono(q + 1, c, d);
    } else if c < q {
      MulMono(c, q - 1, d);
      assert (q - 1) * d == q * d - d;
    }
  }

  lemma FloorMono(x: nat, y: nat, d: nat)
    requires d > 0 && x <= y
    ensures x / d <= y / d
  {
    var f, g := x / d, y / d;
    FloorBounds(x, d);
    FloorBounds(y, d);
    if g < f { MulMono(g + 1, f, d); }
  }

  lemma FloorAtLeast(x: nat, d: nat, f: nat)
    requires d > 0
    ensures x / d >= f <==> x >= f * d
  {
    FloorBounds(x, d);
    if x / d >= f { MulMono(f, x / d, d); } else { MulMono(x / d + 1, f, d); }
  }

  lemma CeilBounds(x: nat, d: nat)
    requires d > 0
    ensures x <= CeilDiv(x, d) * d < x + d
  {
    var c := CeilDiv(x, d);
    CeilIs(x, d, c);
    if c > 0 {
      CeilIs(x, d, c - 1);
      assert (c - 1) * d == c * d - d;
    }
  }

  /** Ceiling division as Rust code without `div_ceil` writes it. */
  lemma CeilByBump(x: nat, d: nat)
    requires d > 0
    ensures (x + d - 1) / d == CeilDiv(x, d)
  {
    CeilBounds(x, d);
    var c := CeilDiv(x, d);
    assert (c + 1) * d == c * d + d;
    FloorIs(x + d - 1, d, c);
  }
}
