/** The bit operations on words that the HRESULT macros use, on unsigned values one bit at a time. */
module Bits {
  function Pow2(k: nat): (p: nat)
    ensures p > 0
  {
    if k == 0 then 1 else 2 * Pow2(k - 1)
  }

  /** x << k, not yet cut to a word */
  function Shl(x: nat, k: nat): nat {
    if k == 0 then x else 2 * Shl(x, k - 1)
  }

  /** x >> k */
  function Shr(x: nat, k: nat): nat {
    if k == 0 then x else Shr(x / 2, k - 1)
  }

  /** The low k bits of x: x & (2^k - 1). */
  function Low(x: nat, k: nat): nat {
    if k == 0 then 0 else x % 2 + 2 * Low(x / 2, k - 1)
  }

  /** x | y */
  function Or(x: nat, y: nat): nat {
    if x == 0 && y == 0 then 0
    else (if x % 2 == 1 || y % 2 == 1 then 1 else 0) + 2 * Or(x / 2, y / 2)
  }

  lemma {:induction false} OrShr(x: nat, y: nat, k: nat)
    ensures Shr(Or(x, y), k) == Or(Shr(x, k), Shr(y, k))
    decreases k
  {
    if k > 0 {
      assert Or(x, y) / 2 == Or(x / 2, y / 2);
      OrShr(x / 2, y / 2, k - 1);
    }
  }

  lemma {:induction false} OrLow(x: nat, y: nat, k: nat)
    ensures Low(Or(x, y), k) == Or(Low(x, k), Low(y, k))
    decreases k
  {
    if k > 0 {
      assert Or(x, y) / 2 == Or(x / 2, y / 2);
      OrLow(x / 2, y / 2, k - 1);
    }
  }

  lemma {:induction false} OrZero(x: nat)
    ensures Or(x, 0) == x && Or(0, x) == x
  {
    if x > 0 { OrZero(x / 2); }
  }

  /** A number is its low bits and the rest. */
  lemma {:induction false} Split(x: nat, k: nat)
    ensures x == Low(x, k) + Pow2(k) * Shr(x, k) && Low(x, k) < Pow2(k)
    decreases k
  {
    if k > 0 {
      Split(x / 2, k - 1);
      calc {
        x;
        x % 2 + 2 * (Low(x / 2, k - 1) + Pow2(k - 1) * Shr(x / 2, k - 1));
        x % 2 + 2 * Low(x / 2, k - 1) + (2 * Pow2(k - 1)) * Shr(x / 2, k - 1);
      }
    }
  }

  lemma SameParts(x: nat, y: nat, k: nat)
    ensures x == y <==> Low(x, k) == Low(y, k) && Shr(x, k) == Shr(y, k)
  {
    Split(x, k);
    Split(y, k);
  }

  lemma Fits(x: nat, k: nat)
    ensures x < Pow2(k) <==> Low(x, k) == x
    ensures x < Pow2(k) <==> Shr(x, k) == 0
    ensures Low(x, k) <= x
  {
    Split(x, k);
    if Shr(x, k) > 0 {
      assert Pow2(k) * Shr(x, k) >= Pow2(k) by { MulGrows(Pow2(k), Shr(x, k)); }
    }
  }

  lemma MulGrows(p: nat, s: nat)
    requires s > 0
    ensures p * s >= p
  {
  }

  lemma {:induction false} ShrShr(x: nat, j: nat, k: nat)
    ensures Shr(Shr(x, j), k) == Shr(x, j + k)
    decreases j
  {
    if j > 0 { ShrShr(x / 2, j - 1, k); }
  }

  lemma {:induction false} ShrLow(x: nat, j: nat, k: nat)
    ensures Shr(Low(x, j + k), j) == Low(Shr(x, j), k)
    decreases j
  {
    if j > 0 {
      assert Low(x, j + k) / 2 == Low(x / 2, j - 1 + k);
      ShrLow(x / 2, j - 1, k);
    }
  }

  lemma {:induction false} LowLow(x: nat, j: nat, k: nat)
    requires j <= k
    ensures Low(Low(x, k), j) == Low(x, j)
    decreases j
  {
    if j > 0 { LowLow(x / 2, j - 1, k - 1); }
  }

  lemma {:induction false} Shifted(x: nat, k: nat)
    ensures Low(Shl(x, k), k) == 0 && Shr(Shl(x, k), k) == x
    decreases k
  {
    if k > 0 {
      assert Shl(x, k) / 2 == Shl(x, k - 1);
      Shifted(x, k - 1);
    }
  }

  lemma Quotient(x: nat, p: nat, q: nat, r: nat)
    requires p > 0 && r < p && x == r + p * q
    ensures q == x / p && r == x % p
  {
    var d := q - x / p;
    assert x == p * (x / p) + x % p;
    assert p * d == x % p - r by { assert p * d == p * q - p * (x / p); }
    assert p * -d == -(p * d);
    if d > 0 {
      MulGrows(p, d);
    } else if d < 0 {
      MulGrows(p, -d);
    }
  }

  /** Shifting and masking are division and remainder. */
  lemma DivMod(x: nat, k: nat)
    ensures Shr(x, k) == x / Pow2(k) && Low(x, k) == x % Pow2(k)
  {
    Split(x, k);
    Quotient(x, Pow2(k), Shr(x, k), Low(x, k));
  }

  lemma Powers()
    ensures Pow2(1) == 2 && Pow2(3) == 8 && Pow2(11) == 0x800 && Pow2(13) == 0x2000 && Pow2(16) == 0x1_0000
    ensures Pow2(29) == 0x2000_0000 && Pow2(32) == 0x1_0000_0000
  {
    assert Pow2(3) == 8;
    assert Pow2(6) == 64;
    assert Pow2(9) == 512;
    assert Pow2(11) == 0x800;
    assert Pow2(13) == 0x2000;
    assert Pow2(16) == 0x1_0000;
    assert Pow2(19) == 0x8_0000;
    assert Pow2(22) == 0x40_0000;
    assert Pow2(25) == 0x200_0000;
    assert Pow2(27) == 0x800_0000;
    assert Pow2(29) == 0x2000_0000;
  }
}
