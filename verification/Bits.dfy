/** C's bitwise operators on unsigned words, as functions on naturals: bit by bit, from
    the lowest. */
module Bits {

  function Pow2(k: nat): (p: nat)
    ensures p > 0
  {
    if k == 0 then 1 else 2 * Pow2(k - 1)
  }

  function Or(a: nat, b: nat): nat {
    if a == 0 then b else if b == 0 then a
    else 2 * Or(a / 2, b / 2) + (if a % 2 == 1 || b % 2 == 1 then 1 else 0)
  }

  function And(a: nat, b: nat): nat {
    if a == 0 || b == 0 then 0
    else 2 * And(a / 2, b / 2) + (if a % 2 == 1 && b % 2 == 1 then 1 else 0)
  }

  function Xor(a: nat, b: nat): nat
    decreases a + b
  {
    if a == 0 && b == 0 then 0
    else 2 * Xor(a / 2, b / 2) + (if a % 2 != b % 2 then 1 else 0)
  }

  /** `|` of words that share no bit position is their sum. */
  lemma {:induction false} OrDisjoint(hi: nat, lo: nat, k: nat)
    requires lo < Pow2(k)
    ensures Or(hi * Pow2(k), lo) == hi * Pow2(k) + lo
    decreases k
  {
    if k > 0 && hi > 0 && lo > 0 {
      var a := hi * Pow2(k);
      assert a == 2 * (hi * Pow2(k - 1));
      assert a / 2 == hi * Pow2(k - 1) && a % 2 == 0 && a > 0;
      OrDisjoint(hi, lo / 2, k - 1);
    } else if hi == 0 {
      assert hi * Pow2(k) == 0;
    }
  }

  lemma {:induction false} OrCommutes(a: nat, b: nat)
    ensures Or(a, b) == Or(b, a)
    decreases a + b
  {
    if a != 0 && b != 0 { OrCommutes(a / 2, b / 2); }
  }

  lemma {:induction false} OrAssociates(a: nat, b: nat, c: nat)
    ensures Or(Or(a, b), c) == Or(a, Or(b, c))
    decreases a + b + c
  {
    if a != 0 && b != 0 && c != 0 {
      OrParts(a, b);
      OrParts(b, c);
      OrAssociates(a / 2, b / 2, c / 2);
      OrParts(Or(a, b), c);
      OrParts(a, Or(b, c));
    }
  }

  lemma OrParts(a: nat, b: nat)
    requires a != 0 && b != 0
    ensures Or(a, b) / 2 == Or(a / 2, b / 2) && Or(a, b) != 0
    ensures Or(a, b) % 2 == 1 <==> a % 2 == 1 || b % 2 == 1
  {
    OrIsZero(a, b);
  }

  lemma {:induction false} OrIsZero(a: nat, b: nat)
    ensures Or(a, b) == 0 <==> a == 0 && b == 0
    decreases a + b
  {
    if a != 0 && b != 0 { OrIsZero(a / 2, b / 2); }
  }

  /** `&` with 2^k - 1 keeps the lowest k bits. */
  lemma {:induction false} AndMask(a: nat, k: nat)
    ensures And(a, Pow2(k) - 1) == a % Pow2(k)
    decreases k
  {
    if k == 0 {
    } else if a == 0 {
      ModOfSmall(0, Pow2(k));
    } else {
      var m := Pow2(k) - 1;
      assert m / 2 == Pow2(k - 1) - 1 && m % 2 == 1;
      AndMask(a / 2, k - 1);
      ModDouble(a, Pow2(k - 1));
    }
  }

  lemma ModOfSmall(x: nat, m: nat)
    requires x < m
    ensures x % m == x
  {
  }

  lemma ModDouble(a: nat, p: nat)
    requires p > 0
    ensures a % (2 * p) == 2 * ((a / 2) % p) + a % 2
  {
    var h := a / 2;
    var q := h / p;
    var r := 2 * (h % p) + a % 2;
    assert h == p * q + h % p;
    assert a == 2 * p * q + r by {
      assert 2 * (p * q) == 2 * p * q;
    }
    ModUnique(a, 2 * p, q, r);
  }

  lemma ModUnique(a: nat, m: nat, q: nat, r: nat)
    requires r < m && a == m * q + r
    ensures a % m == r && a / m == q
  {
    var q1, r1 := a / m, a % m;
    assert a == m * q1 + r1;
    assert m * (q1 - q) == r - r1;
    if q1 != q { Apart(m, q1 - q); }
  }

  lemma Apart(m: int, d: int)
    requires m > 0 && d != 0
    ensures m * d >= m || m * d <= -m
  {
    if d > 0 { assert m * d >= m * 1; } else { assert m * d <= m * -1; }
  }

  lemma {:induction false} XorSelf(a: nat)
    ensures Xor(a, a) == 0
  {
    if a != 0 { XorSelf(a / 2); }
  }

  /** The second `^` with the same word undoes the first. */
  lemma {:induction false} XorTwice(a: nat, b: nat)
    ensures Xor(Xor(a, b), b) == a
    decreases a + b
  {
    if a != 0 || b != 0 {
      var x := Xor(a, b);
      assert x / 2 == Xor(a / 2, b / 2) && (x % 2 == 1 <==> a % 2 != b % 2);
      XorTwice(a / 2, b / 2);
    }
  }

  lemma {:induction false} XorBound(a: nat, b: nat, k: nat)
    requires a < Pow2(k) && b < Pow2(k)
    ensures Xor(a, b) < Pow2(k)
    decreases k
  {
    if k > 0 && (a != 0 || b != 0) { XorBound(a / 2, b / 2, k - 1); }
  }

  // ---------------------------------------------------------------- bit by bit

  /** The k-th bit, counted from the lowest. */
  predicate HasBit(a: nat, k: nat) { a / Pow2(k) % 2 == 1 }

  lemma BitOfHalf(a: nat, k: nat)
    requires k > 0
    ensures HasBit(a, k) <==> HasBit(a / 2, k - 1)
  {
    DivTwice(a, Pow2(k - 1));
  }

  lemma DivTwice(a: nat, p: nat)
    requires p > 0
    ensures a / (2 * p) == a / 2 / p
  {
    var h := a / 2;
    assert h == p * (h / p) + h % p;
    var r := 2 * (h % p) + a % 2;
    assert a == 2 * (p * (h / p)) + r && 2 * (p * (h / p)) == 2 * p * (h / p);
    ModUnique(a, 2 * p, h / p, r);
  }

  lemma ZeroBits(k: nat)
    ensures !HasBit(0, k)
  {
    ModUnique(0, Pow2(k), 0, 0);
  }

  lemma LowestBit(a: nat)
    ensures HasBit(a, 0) <==> a % 2 == 1
  {
  }

  /** `^` differs from its first operand exactly where the second has a bit... */
  lemma {:induction false} XorBits(a: nat, b: nat, k: nat)
    ensures HasBit(Xor(a, b), k) <==> HasBit(a, k) != HasBit(b, k)
    decreases k
  {
    XorHalf(a, b);
    if k == 0 {
      LowestBit(a);
      LowestBit(b);
      LowestBit(Xor(a, b));
    } else {
      BitOfHalf(a, k);
      BitOfHalf(b, k);
      BitOfHalf(Xor(a, b), k);
      XorBits(a / 2, b / 2, k - 1);
    }
  }

  lemma XorHalf(a: nat, b: nat)
    ensures Xor(a, b) / 2 == Xor(a / 2, b / 2) && (Xor(a, b) % 2 == 1 <==> a % 2 != b % 2)
  {
  }

  /** ...`|` has the bits of either... */
  lemma {:induction false} OrBits(a: nat, b: nat, k: nat)
    ensures HasBit(Or(a, b), k) <==> HasBit(a, k) || HasBit(b, k)
    decreases k
  {
    if a == 0 || b == 0 {
      ZeroBits(k);
    } else {
      OrParts(a, b);
      if k == 0 {
        LowestBit(a);
        LowestBit(b);
        LowestBit(Or(a, b));
      } else {
        BitOfHalf(a, k);
        BitOfHalf(b, k);
        BitOfHalf(Or(a, b), k);
        OrBits(a / 2, b / 2, k - 1);
      }
    }
  }

  /** ...and `&` those of both. */
  lemma {:induction false} AndBits(a: nat, b: nat, k: nat)
    ensures HasBit(And(a, b), k) <==> HasBit(a, k) && HasBit(b, k)
    decreases k
  {
    if a == 0 || b == 0 {
      ZeroBits(k);
    } else {
      AndHalf(a, b);
      if k == 0 {
        LowestBit(a);
        LowestBit(b);
        LowestBit(And(a, b));
      } else {
        BitOfHalf(a, k);
        BitOfHalf(b, k);
        BitOfHalf(And(a, b), k);
        AndBits(a / 2, b / 2, k - 1);
      }
    }
  }

  lemma AndHalf(a: nat, b: nat)
    requires a != 0 && b != 0
    ensures And(a, b) / 2 == And(a / 2, b / 2) && (And(a, b) % 2 == 1 <==> a % 2 == 1 && b % 2 == 1)
  {
  }
}
