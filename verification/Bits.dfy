/** The bits of unsigned words, and their bitwise or. */
module Bits {
  import opened Basics

  predicate Bit(x: nat, i: nat)
    decreases i
  {
    if i == 0 then x % 2 == 1 else Bit(x / 2, i - 1)
  }

  function Or(a: nat, b: nat): (r: nat)
    decreases a + b
  {
    if a == 0 then b else if b == 0 then a
    else (if a % 2 == 1 || b % 2 == 1 then 1 else 0) + 2 * Or(a / 2, b / 2)
  }

  lemma {:induction false} OrBit(a: nat, b: nat, i: nat)
    ensures Bit(Or(a, b), i) <==> Bit(a, i) || Bit(b, i)
    decreases i
  {
    if a == 0 {
      NoBit(i);
    } else if b == 0 {
      NoBit(i);
    } else if i > 0 {
      OrBit(a / 2, b / 2, i - 1);
      assert Or(a, b) / 2 == Or(a / 2, b / 2);
    }
  }

  lemma {:induction false} NoBit(i: nat)
    ensures !Bit(0, i)
    decreases i
  {
    if i > 0 {
      NoBit(i - 1);
    }
  }

  function Pow2(n: nat): (r: nat)
    ensures r > 0
  {
    if n == 0 then 1 else 2 * Pow2(n - 1)
  }

  lemma {:induction false} Pow2Add(m: nat, n: nat)
    ensures Pow2(m + n) == Pow2(m) * Pow2(n)
  {
    if m > 0 {
      Pow2Add(m - 1, n);
      Associate(Pow2(m - 1), Pow2(n));
    }
  }

  lemma Associate(a: nat, b: nat)
    ensures 2 * (a * b) == 2 * a * b
  {
  }

  lemma WordPow()
    ensures Pow2(12) == 0x1000 && Pow2(36) == 0x10_0000_0000 && Pow2(64) == WORD
  {
    assert Pow2(12) == 0x1000;
    Pow2Add(12, 12);
    Pow2Add(24, 12);
    Pow2Add(36, 12);
    Pow2Add(48, 12);
    assert Pow2(4) == 16;
    Pow2Add(60, 4);
  }

  lemma {:induction false} OrBound(a: nat, b: nat, n: nat)
    requires a < Pow2(n) && b < Pow2(n)
    ensures Or(a, b) < Pow2(n)
    decreases n
  {
    if a != 0 && b != 0 {
      OrBound(a / 2, b / 2, n - 1);
    }
  }

  // High and low bits apart.
  lemma {:induction false} OrSplit(a: nat, b: nat, x: nat, y: nat, n: nat)
    requires x < Pow2(n) && y < Pow2(n)
    ensures Or(a * Pow2(n) + x, b * Pow2(n) + y) == Or(a, b) * Pow2(n) + Or(x, y)
    decreases n
  {
    hide Or;
    if n > 0 {
      var p := Pow2(n - 1);
      OrSplit(a, b, x / 2, y / 2, n - 1);
      SplitStep(a, b, x, y, p);
    } else {
      NoLow(a, b);
    }
  }

  lemma NoLow(a: nat, b: nat)
    ensures Or(a * 1 + 0, b * 1 + 0) == Or(a, b) * 1 + Or(0, 0)
  {
  }

  lemma SplitStep(a: nat, b: nat, x: nat, y: nat, p: nat)
    requires Or(a * p + x / 2, b * p + y / 2) == Or(a, b) * p + Or(x / 2, y / 2)
    ensures Or(a * (2 * p) + x, b * (2 * p) + y) == Or(a, b) * (2 * p) + Or(x, y)
  {
    hide Or;
    var u, v := a * (2 * p) + x, b * (2 * p) + y;
    Halve(a, x, p);
    Halve(b, y, p);
    Halve(Or(a, b), Or(x, y), p);
    OrHalf(u, v);
    OrHalf(x, y);
    SameHalves(Or(u, v), Or(a, b) * (2 * p) + Or(x, y));
  }

  lemma SameHalves(u: nat, v: nat)
    requires u / 2 == v / 2 && u % 2 == v % 2
    ensures u == v
  {
  }

  lemma Halve(a: nat, x: nat, p: nat)
    ensures (a * (2 * p) + x) / 2 == a * p + x / 2 && (a * (2 * p) + x) % 2 == x % 2
  {
    assert a * (2 * p) == 2 * (a * p);
  }

  lemma OrHalf(a: nat, b: nat)
    ensures Or(a, b) / 2 == Or(a / 2, b / 2) && Or(a, b) % 2 == if a % 2 == 1 || b % 2 == 1 then 1 else 0
  {
  }
}
