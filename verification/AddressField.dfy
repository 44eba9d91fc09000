/** The address checksum as a polynomial remainder. Symbols are the elements of
    GF(32), taken modulo x^5 + x^3 + 1; the checksum of symbols is the remainder
    of the polynomial they spell by the generator of the CashAddr specification,
    section "Checksum". */
module AddressField {
  import opened Bits
  import opened AddressChecksum

  // ----- GF(32) -----

  const MODULUS: nat := 0x29    // x^5 + x^3 + 1

  /** Multiplies an element by x. */
  function TimesX(a: symbol): symbol {
    assert Xor(2 * a, if a >= 16 then MODULUS else 0) < 32 by { TimesXFits(a); }
    Xor(2 * a, if a >= 16 then MODULUS else 0)
  }

  lemma TimesXFits(a: symbol)
    ensures Xor(2 * a, if a >= 16 then MODULUS else 0) < 32
  {
    if a >= 16 {
      var low := a - 16;
      assert Pow2(5) == 32;
      ShlAdd(1, 2 * low, 5);
      ShlAdd(1, 9, 5);
      XorExchange(32, 2 * low, 32, 9);
      XorBasics(32, 32);
      XorBasics(Xor(2 * low, 9), 0);
      XorFits(2 * low, 9, 5);
    } else {
      XorBasics(2 * a, 0);
    }
  }

  /** Adds two elements, or takes one from the other. */
  function Plus(a: symbol, b: symbol): symbol {
    XorSymbol(a, b)
  }

  /** The product in GF(32): the sum of a * x^k over the bits k of b. */
  function Times(a: symbol, b: nat): symbol
    decreases b
  {
    if b == 0 then 0 else Plus(if b % 2 == 1 then a else 0, TimesX(Times(a, b / 2)))
  }

  lemma HighBit(a: symbol)
    ensures a >= 16 <==> Shr(a, 4) == 1
    ensures a < 16 <==> Shr(a, 4) == 0
  {
    assert Shr(a, 4) == Shr(a / 2, 3) == Shr(a / 4, 2) == Shr(a / 8, 1) == a / 16;
  }

  /** Multiplying by x distributes over sums. */
  lemma TimesXIsLinear(a: symbol, b: symbol)
    ensures TimesX(Plus(a, b)) == Plus(TimesX(a), TimesX(b))
  {
    HighBit(a);
    HighBit(b);
    HighBit(Plus(a, b));
    XorShr(a, b, 4);
    hide Xor;
    OneBitSums();
    var ma := if a >= 16 then MODULUS else 0;
    var mb := if b >= 16 then MODULUS else 0;
    XorShl(a, b, 1);
    assert Shl(a, 1) == 2 * a && Shl(b, 1) == 2 * b && Shl(Xor(a, b), 1) == 2 * Xor(a, b);
    XorExchange(2 * a, 2 * b, ma, mb);
    XorBasics(MODULUS, 0);
    XorBasics(MODULUS, MODULUS);
    XorBasics(0, 0);
  }

  lemma OneBitSums()
    ensures Xor(0, 0) == 0 && Xor(0, 1) == 1 && Xor(1, 0) == 1 && Xor(1, 1) == 0
  {
  }

  lemma ZeroTimes()
    ensures TimesX(0) == 0 && Plus(0, 0) == 0
  {
  }

  /** A factor x may be taken out of a product. */
  lemma {:induction false} TimesTakesX(a: symbol, b: nat)
    ensures Times(TimesX(a), b) == TimesX(Times(a, b))
    decreases b
  {
    hide TimesX, Plus;
    ZeroTimes();
    if b != 0 {
      TimesTakesX(a, b / 2);
      TimesXIsLinear(if b % 2 == 1 then a else 0, TimesX(Times(a, b / 2)));
    }
  }

  lemma TimesOne(b: symbol)
    ensures Times(1, b) == b
  {
    hide Xor;
    var x1, x2, x3, x4 := TimesX(1), TimesX(2), TimesX(4), TimesX(8);
    SmallDoubles(b / 2);
    SmallDoubles(b / 4);
    SmallDoubles(b / 8);
    SmallDoubles(b / 16);
    assert Times(1, b / 16) == b / 16;
    assert Times(1, b / 8) == b / 8;
    assert Times(1, b / 4) == b / 4;
    assert Times(1, b / 2) == b / 2;
  }

  /** Below 16 nothing is reduced: doubling and adding a last bit is plain. */
  lemma SmallDoubles(a: nat)
    requires a < 16
    ensures TimesX(a) == 2 * a && Plus(0, 2 * a) == 2 * a && Plus(1, 2 * a) == 2 * a + 1
    ensures TimesX(0) == 0 && Plus(1, 0) == 1 && Plus(0, 0) == 0
  {
    XorBasics(2 * a, 0);
    XorBasics(1, 2 * a);
    XorBasics(a, 0);
  }

  // ----- The generator -----

  /** The coefficients below x^8 of the generator of the specification, from x^7
      down: x^8 + 19 x^7 + 3 x^6 + 25 x^5 + 11 x^4 + 25 x^3 + 3 x^2 + 19 x + 1. */
  function Generator(i: nat): symbol
    requires i < 8
  {
    [19, 3, 25, 11, 25, 3, 19, 1][i]
  }

  function TimesPower(a: symbol, k: nat): symbol {
    if k == 0 then a else TimesX(TimesPower(a, k - 1))
  }

  /** The symbols of constant `k` of the source. */
  function Spelled(k: nat): seq<symbol>
    requires k < 5
  {
    if k == 0 then [19, 3, 25, 11, 25, 3, 19, 1]
    else if k == 1 then [15, 6, 27, 22, 27, 6, 15, 2]
    else if k == 2 then [30, 12, 31, 5, 31, 12, 30, 4]
    else if k == 3 then [21, 24, 23, 10, 23, 24, 21, 8]
    else [3, 25, 7, 20, 7, 25, 3, 16]
  }

  /** One more base-32 digit. */
  function Digit(acc: nat, v: nat): nat {
    acc * 32 + v
  }

  /** Packing eight symbols, without shifts. */
  lemma PackEight(s: seq<symbol>)
    requires |s| == 8
    ensures Pack(0, s)
         == Digit(Digit(Digit(Digit(Digit(Digit(Digit(Digit(0, s[0]), s[1]), s[2]), s[3]), s[4]), s[5]), s[6]), s[7])
  {
    hide Digit, Pack;
    PackOne(0, s);
    PackTwo(Digit(0, s[0]), s[1..]);
    PackTwo(Digit(Digit(Digit(0, s[0]), s[1]), s[2]), s[3..]);
    PackTwo(Digit(Digit(Digit(Digit(Digit(0, s[0]), s[1]), s[2]), s[3]), s[4]), s[5..]);
    assert s[7..][1..] == [];
    PackOne(Digit(Digit(Digit(Digit(Digit(Digit(Digit(0, s[0]), s[1]), s[2]), s[3]), s[4]), s[5]), s[6]), s[7..]);
  }

  lemma PackOne(acc: nat, s: seq<symbol>)
    requires s != []
    ensures Pack(acc, s) == Pack(Digit(acc, s[0]), s[1..])
    ensures |s| == 1 ==> Pack(acc, s) == Digit(acc, s[0])
  {
    assert Shl(acc, 1) == acc * 2 && Shl(acc, 2) == acc * 4 && Shl(acc, 3) == acc * 8 && Shl(acc, 4) == acc * 16;
  }

  lemma PackTwo(acc: nat, s: seq<symbol>)
    requires |s| >= 2
    ensures Pack(acc, s) == Pack(Digit(Digit(acc, s[0]), s[1]), s[2..])
  {
    hide Digit, Pack;
    PackOne(acc, s);
    PackOne(Digit(acc, s[0]), s[1..]);
    assert s[1..][1..] == s[2..];
  }

  lemma ConstantSpelled(k: nat)
    requires k < 5
    ensures ChecksumSymbols(GEN[k]) == Spelled(k)
  {
    hide Pack, ChecksumSymbols, Pow2;
    PackEight(Spelled(k));
    Pow2Of40();
    SymbolsPack(GEN[k]);
    EightSymbols(GEN[k]);
    PackInjective(0, 0, ChecksumSymbols(GEN[k]), Spelled(k));
  }

  lemma EightSymbols(c: nat)
    ensures |ChecksumSymbols(c)| == 8
    ensures forall i :: 0 <= i < 8 ==> ChecksumSymbols(c)[i] == ChecksumSymbol(c, i)
  {
  }

  /** Symbol by symbol, each constant is the one before it times x. */
  lemma SpelledIsPower(k: nat, i: nat)
    requires k < 5 && i < 8
    ensures Spelled(k)[i] == TimesPower(Generator(i), k)
    ensures k > 0 ==> Spelled(k)[i] == TimesX(Spelled(k - 1)[i])
  {
    if k > 0 {
      SpelledIsPower(k - 1, i);
      TimesXOfSpelled(k - 1, i);
    }
  }

  lemma XorStep(a: nat, b: nat)
    ensures Xor(a, b) == 2 * Xor(a / 2, b / 2) + if a % 2 == b % 2 then 0 else 1
  {
  }

  lemma UpperBits(a: symbol)
    requires a >= 16
    ensures Xor(a / 4, 5) == 2 * (a / 8 % 2) + 1 - a / 4 % 2
  {
    hide Xor;
    XorStep(a / 4, 5);
    XorStep(a / 8, 2);
    XorBasics(1, 1);
  }

  /** Doubled, and reduced in bits 5, 3 and 0 where it needs to be. */
  lemma Doubled(a: symbol)
    ensures TimesX(a) == if a < 16 then 2 * a else if a / 4 % 2 == 0 then 2 * a - 23 else 2 * a - 39
  {
    hide Xor;
    if a < 16 {
      XorBasics(2 * a, 0);
    } else {
      XorStep(2 * a, MODULUS);
      XorStep(a, 20);
      XorStep(a / 2, 10);
      UpperBits(a);
    }
  }

  lemma TimesXOfSpelled(k: nat, i: nat)
    requires k < 4 && i < 8
    ensures TimesX(Spelled(k)[i]) == Spelled(k + 1)[i]
  {
    hide TimesX;
    Doubled(Spelled(k)[i]);
  }

  // ----- The step -----

  lemma SymbolOfXor(a: nat, b: nat, i: nat)
    requires i < 8
    ensures ChecksumSymbol(Xor(a, b), i) == Plus(ChecksumSymbol(a, i), ChecksumSymbol(b, i))
  {
    XorShr(a, b, 5 * (7 - i));
    XorLow(Shr(a, 5 * (7 - i)), Shr(b, 5 * (7 - i)), 5);
  }

  lemma ZeroSymbol(i: nat)
    requires i < 8
    ensures ChecksumSymbol(0, i) == 0
  {
    ShrOfZero(5 * (7 - i));
  }

  lemma ShrStep(a: nat, n: nat)
    ensures Shr(a, n + 1) == Shr(a, n) / 2
  {
    ShrShr(a, n, 1);
    assert Shr(Shr(a, n), 1) == Shr(a, n) / 2;
  }

  /** What the constants add for `top` is the generator times `top`. */
  lemma {:induction false} MixIsProduct(top: symbol, k: nat, i: nat)
    requires k <= 5 && i < 8
    ensures ChecksumSymbol(Mix(top, k), i) == Times(TimesPower(Generator(i), k), Shr(top, k))
    decreases 5 - k
  {
    hide Xor, ChecksumSymbol, TimesX, Plus, Generator, ChecksumSymbols;
    ZeroSymbol(i);
    if k == 5 {
      assert Pow2(5) == 32;
      FitsBits(top, 5);
    } else {
      MixIsProduct(top, k + 1, i);
      var bits, g := Shr(top, k), TimesPower(Generator(i), k);
      ShrStep(top, k);
      TimesTakesX(g, bits / 2);
      ConstantSpelled(k);
      EightSymbols(GEN[k]);
      SpelledIsPower(k, i);
      SymbolOfXor(if bits % 2 == 1 then GEN[k] else 0, Mix(top, k + 1), i);
      ZeroTimes();
    }
  }

  lemma {:induction false} LowOfLow(a: nat, m: nat, k: nat, w: nat)
    requires k + w <= m
    ensures Low(Shr(Low(a, m), k), w) == Low(Shr(a, k), w)
    decreases k, w
  {
    if k > 0 {
      assert Low(a, m) / 2 == Low(a / 2, m - 1);
      LowOfLow(a / 2, m - 1, k - 1, w);
    } else if w > 0 {
      LowOfLow(a / 2, m - 1, 0, w - 1);
    }
  }

  /** Moving up five bits moves up one symbol. */
  lemma ShiftedSymbols(c: nat, v: symbol, i: nat)
    requires i < 8
    ensures ChecksumSymbol(Shl(Low(c, 35), 5) + v, i) == if i < 7 then ChecksumSymbol(c, i + 1) else v
  {
    hide Shl, Shr, Low, Pow2;
    FiveBitsFit(v);
    ShlAdd(Low(c, 35), v, 5);
    if i < 7 {
      ShrShr(Shl(Low(c, 35), 5) + v, 5, 5 * (6 - i));
      LowOfLow(c, 35, 5 * (6 - i), 5);
    } else {
      ShrByZero(Shl(Low(c, 35), 5) + v);
    }
  }

  lemma FiveBitsFit(v: symbol)
    ensures v < Pow2(5)
  {
    assert Pow2(5) == 32;
  }

  lemma ShrByZero(a: nat)
    ensures Shr(a, 0) == a
  {
  }

  lemma TopSymbol(c: nat)
    requires c < Pow2(40)
    ensures Shr(c, 35) == ChecksumSymbol(c, 0)
  {
    hide Shr, Low, Pow2;
    FitsBits(c, 40);
    ShrShr(c, 35, 5);
    FitsBits(Shr(c, 35), 5);
  }

  /** One symbol more: what the checksum does is to multiply its polynomial by x,
      add the symbol, and take away the leading coefficient times the generator. */
  lemma StepIsRemainder(c: nat, v: symbol, i: nat)
    requires c < Pow2(40) && i < 8
    ensures ChecksumSymbol(PolyStep(c, v), i)
         == Plus(if i < 7 then ChecksumSymbol(c, i + 1) else v, Times(Generator(i), ChecksumSymbol(c, 0)))
  {
    hide ChecksumSymbol, Xor, Shl, Low, Mix, ApplyGenerators, Pow2, Times, Plus, Generator;
    TopSymbol(c);
    var moved, top := Shl(Low(c, 35), 5) + v, ChecksumSymbol(c, 0);
    GeneratorsMix(moved, top, 0);
    SymbolOfXor(moved, Mix(top, 0), i);
    ShiftedSymbols(c, v, i);
    MixIsProduct(top, 0, i);
    ShrByZero(top);
  }

  // ----- The whole remainder -----

  /** Adds polynomials of the same length, coefficient by coefficient. */
  function Sum(a: seq<symbol>, b: seq<symbol>): (c: seq<symbol>)
    requires |a| == |b|
    ensures |c| == |a| && forall i :: 0 <= i < |a| ==> c[i] == Plus(a[i], b[i])
  {
    seq(|a|, i requires 0 <= i < |a| => Plus(a[i], b[i]))
  }

  /** The generator with its leading coefficient, times `t`. */
  function GeneratorTimes(t: symbol): (g: seq<symbol>)
    ensures |g| == 9
  {
    [t] + seq(8, i requires 0 <= i < 8 => Times(Generator(i), t))
  }

  /** The polynomial `q` times the generator, by Horner's rule. */
  function Multiple(q: seq<symbol>): (m: seq<symbol>)
    ensures |m| == |q| + 8
  {
    if q == [] then Zeros(8)
    else
      var n := |q| - 1;
      Sum(Multiple(q[..n]) + [0], Zeros(n) + GeneratorTimes(q[n]))
  }

  /** The leading coefficients taken away on the way, the quotient. */
  function Quotient(values: seq<symbol>): (q: seq<symbol>)
    ensures |q| == |values|
  {
    if values == [] then []
    else
      var n := |values| - 1;
      Quotient(values[..n]) + [ChecksumSymbol(Polymod(values[..n]), 0)]
  }

  /** The polynomial that starts from the checksum's initial 1. */
  function Message(values: seq<symbol>): seq<symbol> {
    Zeros(7) + [1] + values
  }

  lemma LastStep(values: seq<symbol>)
    requires values != []
    ensures var n := |values| - 1;
            Polymod(values) == PolyStep(Polymod(values[..n]), values[n]) && Polymod(values[..n]) < Pow2(40)
  {
    var n := |values| - 1;
    hide PolyStep, Pow2;
    PolyConcat(1, values[..n], [values[n]]);
    assert values == values[..n] + [values[n]];
    assert PolyFrom(Polymod(values[..n]), [values[n]]) == PolyStep(Polymod(values[..n]), values[n]);
    OneFits();
    StatesFit(1, values[..n]);
  }

  lemma OneFits()
    ensures 1 < Pow2(40)
  {
    Pow2Of40();
  }

  lemma PlusLaws(a: symbol, b: symbol, c: symbol)
    ensures Plus(a, 0) == a && Plus(0, a) == a && Plus(a, a) == 0
    ensures Plus(Plus(a, b), c) == Plus(a, Plus(b, c)) && Plus(a, b) == Plus(b, a)
    ensures Plus(Plus(a, b), b) == a
  {
    XorBasics(a, 0);
    XorBasics(0, a);
    XorBasics(a, a);
    XorBasics(a, b);
    XorAssociates(a, b, c);
    XorCancels(a, b);
  }

  /** The remainder with the symbol below it is its leading coefficient's multiple
      of the generator and the next remainder. */
  lemma NineSymbols(c: nat, v: symbol)
    requires c < Pow2(40)
    ensures ChecksumSymbols(c) + [v] == Sum(GeneratorTimes(ChecksumSymbol(c, 0)), [0] + ChecksumSymbols(PolyStep(c, v)))
  {
    hide PolyStep, ChecksumSymbol, Plus, Times, Generator, Pow2;
    var t, r := ChecksumSymbol(c, 0), PolyStep(c, v);
    var sum := Sum(GeneratorTimes(t), [0] + ChecksumSymbols(r));
    PlusLaws(t, 0, 0);
    forall k | 0 <= k < 9 ensures sum[k] == (ChecksumSymbols(c) + [v])[k] {
      if k > 0 {
        StepIsRemainder(c, v, k - 1);
        var s := if k < 8 then ChecksumSymbol(c, k) else v;
        var g := Times(Generator(k - 1), t);
        PlusLaws(s, g, 0);
        PlusLaws(g, Plus(s, g), 0);
      }
    }
  }

  lemma SumOfSums(a: seq<symbol>, b: seq<symbol>, c: seq<symbol>)
    requires |a| == |b| == |c|
    ensures Sum(Sum(a, b), c) == Sum(a, Sum(b, c))
  {
    hide Plus;
    forall i | 0 <= i < |a| ensures Sum(Sum(a, b), c)[i] == Sum(a, Sum(b, c))[i] {
      PlusLaws(a[i], b[i], c[i]);
    }
  }

  lemma SumExtended(a: seq<symbol>, b: seq<symbol>, v: symbol)
    requires |a| == |b|
    ensures Sum(a, b) + [v] == Sum(a + [0], b + [v])
  {
    hide Plus;
    PlusLaws(v, 0, 0);
  }

  lemma ZerosBefore(n: nat, a: seq<symbol>, b: seq<symbol>)
    requires |a| == |b|
    ensures Sum(Zeros(n) + a, Zeros(n) + b) == Zeros(n) + Sum(a, b)
  {
    hide Plus;
    PlusLaws(0, 0, 0);
  }

  /** The checksum of any symbols is the remainder of their polynomial, with the
      initial 1 in front, by the generator: quotient times generator and checksum
      add up to that polynomial. */
  lemma {:induction false} ChecksumIsRemainder(values: seq<symbol>)
    ensures Message(values) == Sum(Multiple(Quotient(values)), Zeros(|values|) + ChecksumSymbols(Polymod(values)))
    decreases |values|
  {
    hide Polymod, ChecksumSymbol, Sum, Pow2;
    var n := |values|;
    if n == 0 {
      OneAlone();
    } else {
      var front, v := values[..n - 1], values[n - 1];
      ChecksumIsRemainder(front);
      LastStep(values);
      var c, q := Polymod(front), Quotient(front);
      var t := ChecksumSymbol(c, 0);
      var r := ChecksumSymbols(Polymod(values));
      var pad, g := Zeros(n - 1), GeneratorTimes(t);
      NineSymbols(c, v);
      SumExtended(Multiple(q), pad + ChecksumSymbols(c), v);
      ZerosBefore(n - 1, g, [0] + r);
      assert Zeros(n) + r == pad + ([0] + r);
      assert pad + ChecksumSymbols(c) + [v] == pad + (ChecksumSymbols(c) + [v]);
      SumOfSums(Multiple(q) + [0], pad + g, pad + ([0] + r));
      assert Message(values) == Message(front) + [v];
      assert Quotient(values)[..n - 1] == q && Quotient(values)[n - 1] == t;
    }
  }

  lemma OneSpelled()
    ensures ChecksumSymbols(1) == Zeros(7) + [1]
  {
    hide Pack, Pow2, ChecksumSymbols;
    var one: seq<symbol> := Zeros(7) + [1];
    OneFits();
    SymbolsPack(1);
    EightSymbols(1);
    PackEight(one);
    PackInjective(0, 0, ChecksumSymbols(1), one);
  }

  lemma OneAlone()
    ensures Message([]) == Sum(Multiple([]), Zeros(0) + ChecksumSymbols(Polymod([])))
  {
    hide ChecksumSymbols, Plus;
    OneSpelled();
    var one: seq<symbol> := Zeros(7) + [1];
    forall i | 0 <= i < 8 ensures Sum(Zeros(8), one)[i] == one[i] { PlusLaws(one[i], 0, 0); }
    assert Sum(Zeros(8), one) == one;
    assert Message([]) == one && Zeros(0) + ChecksumSymbols(1) == one;
  }
}
