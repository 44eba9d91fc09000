/** The bit operations of unsigned machine words, on natural numbers, and
    big-endian bit strings. */
module Bits {

  function Pow2(n: nat): (p: nat)
    ensures p > 0
  {
    if n == 0 then 1 else 2 * Pow2(n - 1)
  }

  /** `a >> n`. */
  function Shr(a: nat, n: nat): nat {
    if n == 0 then a else Shr(a / 2, n - 1)
  }

  /** `a << n`, before any bit is lost. */
  function Shl(a: nat, n: nat): nat {
    if n == 0 then a else 2 * Shl(a, n - 1)
  }

  /** `a & ((1 << n) - 1)`: the low `n` bits. */
  function Low(a: nat, n: nat): nat {
    if n == 0 then 0 else 2 * Low(a / 2, n - 1) + a % 2
  }

  /** `a ^ b`. */
  function Xor(a: nat, b: nat): nat {
    if a == 0 && b == 0 then 0
    else 2 * Xor(a / 2, b / 2) + if a % 2 == b % 2 then 0 else 1
  }

  // ----- Shifts and masks -----

  /** A value fits `n` bits exactly when it is below 2^n, when shifting by `n`
      leaves nothing, and when masking changes nothing. */
  lemma {:induction false} FitsBits(a: nat, n: nat)
    ensures a < Pow2(n) <==> Shr(a, n) == 0
    ensures a < Pow2(n) <==> Low(a, n) == a
    ensures Low(a, n) < Pow2(n)
  {
    if n > 0 { FitsBits(a / 2, n - 1); }
  }

  /** Bits put below a shifted value stay apart from it. */
  lemma {:induction false} ShlAdd(a: nat, low: nat, n: nat)
    requires low < Pow2(n)
    ensures Shr(Shl(a, n) + low, n) == a
    ensures Low(Shl(a, n) + low, n) == low
    ensures Xor(Shl(a, n), low) == Shl(a, n) + low
  {
    hide Xor;
    XorBasics(a, 0);
    if n > 0 {
      ShlAdd(a, low / 2, n - 1);
      XorBasics(Shl(a, n), low);
    }
  }

  lemma {:induction false} SplitAt(a: nat, n: nat)
    ensures a == Shl(Shr(a, n), n) + Low(a, n)
  {
    if n > 0 {
      SplitAt(a / 2, n - 1);
      assert Shl(Shr(a, n), n) == 2 * Shl(Shr(a / 2, n - 1), n - 1);
    }
  }

  lemma {:induction false} ShrShr(a: nat, m: nat, n: nat)
    ensures Shr(Shr(a, m), n) == Shr(a, m + n)
  {
    if m > 0 { ShrShr(a / 2, m - 1, n); }
  }

  // ----- Exclusive or -----

  lemma {:induction false} XorBasics(a: nat, b: nat)
    ensures Xor(a, b) == Xor(b, a)
    ensures Xor(a, 0) == a
    ensures Xor(a, a) == 0
    ensures Xor(a, b) / 2 == Xor(a / 2, b / 2)
    ensures Xor(a, b) % 2 == (if a % 2 == b % 2 then 0 else 1)
    decreases a + b
  {
    if a != 0 || b != 0 { XorBasics(a / 2, b / 2); }
  }

  lemma {:induction false} XorAssociates(a: nat, b: nat, c: nat)
    ensures Xor(Xor(a, b), c) == Xor(a, Xor(b, c))
    decreases a + b + c
  {
    if a != 0 || b != 0 || c != 0 {
      XorBasics(a, b);
      XorBasics(b, c);
      XorAssociates(a / 2, b / 2, c / 2);
    }
  }

  /** Four terms may be regrouped. */
  lemma XorExchange(a: nat, b: nat, c: nat, d: nat)
    ensures Xor(Xor(a, b), Xor(c, d)) == Xor(Xor(a, c), Xor(b, d))
  {
    XorAssociates(a, b, Xor(c, d));
    XorAssociates(b, c, d);
    XorBasics(b, c);
    XorAssociates(c, b, d);
    XorAssociates(a, c, Xor(b, d));
  }

  lemma XorCancels(a: nat, b: nat)
    ensures Xor(Xor(a, b), b) == a
  {
    XorAssociates(a, b, b);
    XorBasics(b, b);
    XorBasics(a, 0);
  }

  lemma {:induction false} XorShr(a: nat, b: nat, n: nat)
    ensures Shr(Xor(a, b), n) == Xor(Shr(a, n), Shr(b, n))
  {
    if n > 0 {
      XorBasics(a, b);
      XorShr(a / 2, b / 2, n - 1);
    }
  }

  lemma {:induction false} XorLow(a: nat, b: nat, n: nat)
    ensures Low(Xor(a, b), n) == Xor(Low(a, n), Low(b, n))
  {
    hide Xor;
    XorBasics(0, 0);
    if n > 0 {
      XorBasics(a, b);
      XorLow(a / 2, b / 2, n - 1);
      XorBasics(Low(a, n), Low(b, n));
    }
  }

  lemma {:induction false} XorShl(a: nat, b: nat, n: nat)
    ensures Shl(Xor(a, b), n) == Xor(Shl(a, n), Shl(b, n))
  {
    hide Xor;
    if n > 0 {
      XorShl(a, b, n - 1);
      XorBasics(Shl(a, n), Shl(b, n));
    }
  }

  lemma XorFits(a: nat, b: nat, n: nat)
    requires a < Pow2(n) && b < Pow2(n)
    ensures Xor(a, b) < Pow2(n)
  {
    FitsBits(a, n);
    FitsBits(b, n);
    FitsBits(Xor(a, b), n);
    XorShr(a, b, n);
  }

  // ----- Bit strings -----

  /** The low `w` bits of `v`, most significant first. */
  function BitsOf(v: nat, w: nat): (bits: seq<bool>)
    ensures |bits| == w
  {
    if w == 0 then [] else BitsOf(v / 2, w - 1) + [v % 2 == 1]
  }

  /** The bits determine a value that fits them. */
  lemma {:induction false} BitsInjective(a: nat, b: nat, w: nat)
    requires a < Pow2(w) && b < Pow2(w) && BitsOf(a, w) == BitsOf(b, w)
    ensures a == b
  {
    if w > 0 {
      var x, y := BitsOf(a, w), BitsOf(b, w);
      assert x[w - 1] == y[w - 1] && x[..w - 1] == y[..w - 1];
      assert x[..w - 1] == BitsOf(a / 2, w - 1) && y[..w - 1] == BitsOf(b / 2, w - 1);
      BitsInjective(a / 2, b / 2, w - 1);
    }
  }

  /** Bits depend only on the value below their width. */
  lemma {:induction false} BitsOfLow(v: nat, w: nat, n: nat)
    requires w <= n
    ensures BitsOf(Low(v, n), w) == BitsOf(v, w)
  {
    if w > 0 { BitsOfLow(v / 2, w - 1, n - 1); }
  }

  /** Appending `f` bits below a value. */
  lemma {:induction false} BitsOfAppend(a: nat, w: nat, low: nat, f: nat)
    requires low < Pow2(f)
    ensures BitsOf(Shl(a, f) + low, w + f) == BitsOf(a, w) + BitsOf(low, f)
  {
    if f > 0 {
      BitsOfAppend(a, w, low / 2, f - 1);
      var v := Shl(a, f) + low;
      assert v / 2 == Shl(a, f - 1) + low / 2 && v % 2 == low % 2;
    }
  }

  /** The bits above the lowest `w` are those of the value shifted right. */
  lemma BitsOfSplit(v: nat, high: nat, w: nat)
    ensures BitsOf(v, high + w) == BitsOf(Shr(v, w), high) + BitsOf(v, w)
  {
    SplitAt(v, w);
    FitsBits(v, w);
    BitsOfAppend(Shr(v, w), high, Low(v, w), w);
    BitsOfLow(v, w, w);
  }

  lemma {:induction false} ZeroBits(w: nat)
    ensures BitsOf(0, w) == seq(w, _ => false)
  {
    if w > 0 { ZeroBits(w - 1); }
  }
}
