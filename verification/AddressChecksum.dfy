/** The 40-bit checksum of address strings (the polymod of the CashAddr
    specification, section "Checksum"), and why it works: it is linear over
    GF(2), and eight symbols shift through it unchanged. */
module AddressChecksum {
  import opened Bits

  const GEN: seq<nat> := [0x98f2bc8e61, 0x79b76d99e2, 0xf33e5fb3c4, 0xae2eabe2a8, 0x1e4f43e470]
  const CHECKSUM_LEN: nat := 8

  /** A 5-bit symbol. */
  type symbol = v: nat | v < 32

  /** Folds in the generators from `index` on that the bits of `top` select. */
  function ApplyGenerators(checksum: nat, top: nat, index: nat): nat
    requires index <= 5
    decreases 5 - index
  {
    if index == 5 then checksum
    else ApplyGenerators(if Shr(top, index) % 2 == 1 then Xor(checksum, GEN[index]) else checksum, top, index + 1)
  }

  /** One symbol: the 40-bit state moves up five bits, and what leaves at the
      top selects generators. */
  function PolyStep(checksum: nat, value: symbol): nat {
    ApplyGenerators(Shl(Low(checksum, 35), 5) + value, Shr(checksum, 35), 0)
  }

  function PolyFrom(checksum: nat, values: seq<symbol>): nat
    decreases values
  {
    if values == [] then checksum else PolyFrom(PolyStep(checksum, values[0]), values[1..])
  }

  function Polymod(values: seq<symbol>): nat {
    PolyFrom(1, values)
  }

  method ComputePolymod(values: seq<symbol>) returns (checksum: nat)
    ensures checksum == Polymod(values)
  {
    checksum := 1;
    for i := 0 to |values|
      invariant Polymod(values) == PolyFrom(checksum, values[i..])
    {
      var top := Shr(checksum, 35);
      var before := checksum;
      checksum := Shl(Low(checksum, 35), 5) + values[i];
      for index := 0 to 5
        invariant PolyStep(before, values[i]) == ApplyGenerators(checksum, top, index)
      {
        if Shr(top, index) % 2 == 1 { checksum := Xor(checksum, GEN[index]); }
      }
      assert values[i..][0] == values[i] && values[i..][1..] == values[i + 1..];
    }
  }

  // ----- Every state fits 40 bits -----

  lemma Pow2Of40()
    ensures Pow2(40) == 0x100_0000_0000
  {
    assert Pow2(10) == 0x400;
    assert Pow2(20) == 0x400 * Pow2(10) == 0x10_0000;
    assert Pow2(30) == 0x400 * Pow2(20) == 0x4000_0000;
    assert Pow2(40) == 0x400 * Pow2(30);
  }

  lemma GeneratorsFit(checksum: nat, top: nat, index: nat)
    requires index <= 5 && checksum < Pow2(40)
    ensures ApplyGenerators(checksum, top, index) < Pow2(40)
    decreases 5 - index
  {
    if index < 5 {
      Pow2Of40();
      XorFits(checksum, GEN[index], 40);
      GeneratorsFit(if Shr(top, index) % 2 == 1 then Xor(checksum, GEN[index]) else checksum, top, index + 1);
    }
  }

  /** Whatever is fed in, the state stays below 2^40 after every symbol. */
  lemma {:induction false} StatesFit(checksum: nat, values: seq<symbol>)
    requires checksum < Pow2(40)
    ensures PolyFrom(checksum, values) < Pow2(40)
    decreases values
  {
    hide Low, Shl, Shr, Pow2, ApplyGenerators;
    if values != [] {
      var v := values[0];
      FitsBits(checksum, 35);
      AppendSymbolFits(Low(checksum, 35), v, 35);
      GeneratorsFit(Shl(Low(checksum, 35), 5) + v, Shr(checksum, 35), 0);
      StatesFit(PolyStep(checksum, v), values[1..]);
    }
  }

  // ----- Linearity -----

  /** What the generators add, on its own. */
  function Mix(top: nat, index: nat): nat
    requires index <= 5
    decreases 5 - index
  {
    if index == 5 then 0
    else Xor(if Shr(top, index) % 2 == 1 then GEN[index] else 0, Mix(top, index + 1))
  }

  lemma {:induction false} GeneratorsMix(checksum: nat, top: nat, index: nat)
    requires index <= 5
    ensures ApplyGenerators(checksum, top, index) == Xor(checksum, Mix(top, index))
    decreases 5 - index
  {
    XorBasics(checksum, 0);
    if index < 5 {
      var picked := if Shr(top, index) % 2 == 1 then GEN[index] else 0;
      GeneratorsMix(Xor(checksum, picked), top, index + 1);
      XorAssociates(checksum, picked, Mix(top, index + 1));
    }
  }

  lemma {:induction false} MixIsLinear(top: nat, top': nat, index: nat)
    requires index <= 5
    ensures Mix(Xor(top, top'), index) == Xor(Mix(top, index), Mix(top', index))
    decreases 5 - index
  {
    hide Xor, Shr;
    XorBasics(0, 0);
    if index < 5 {
      var g := GEN[index];
      var a := if Shr(top, index) % 2 == 1 then g else 0;
      var b := if Shr(top', index) % 2 == 1 then g else 0;
      XorShr(top, top', index);
      XorBasics(Shr(top, index), Shr(top', index));
      XorBasics(g, 0);
      XorBasics(g, g);
      MixIsLinear(top, top', index + 1);
      XorExchange(a, Mix(top, index + 1), b, Mix(top', index + 1));
    }
  }

  /** Symbolwise exclusive or. */
  function XorSymbols(a: seq<symbol>, b: seq<symbol>): (c: seq<symbol>)
    requires |a| == |b|
    ensures |c| == |a|
  {
    if a == [] then [] else [XorSymbol(a[0], b[0])] + XorSymbols(a[1..], b[1..])
  }

  function XorSymbol(a: symbol, b: symbol): symbol {
    assert Xor(a, b) < 32 by {
      assert Pow2(5) == 32;
      XorFits(a, b, 5);
    }
    Xor(a, b)
  }

  lemma ShiftIn(a: nat, v: symbol)
    ensures Shl(a, 5) + v == Xor(Shl(a, 5), v)
  {
    assert Pow2(5) == 32;
    ShlAdd(a, v, 5);
  }

  lemma StepIsLinear(c: nat, d: nat, v: symbol, w: symbol)
    ensures PolyStep(Xor(c, d), XorSymbol(v, w)) == Xor(PolyStep(c, v), PolyStep(d, w))
  {
    hide Xor, Shl, Shr, Low, Mix, ApplyGenerators;
    var lc, ld, tc, td := Low(c, 35), Low(d, 35), Shr(c, 35), Shr(d, 35);
    XorLow(c, d, 35);
    XorShr(c, d, 35);
    XorShl(lc, ld, 5);
    ShiftIn(lc, v);
    ShiftIn(ld, w);
    ShiftIn(Xor(lc, ld), XorSymbol(v, w));
    XorExchange(Shl(lc, 5), Shl(ld, 5), v, w);
    GeneratorsMix(Shl(lc, 5) + v, tc, 0);
    GeneratorsMix(Shl(ld, 5) + w, td, 0);
    GeneratorsMix(Shl(Xor(lc, ld), 5) + XorSymbol(v, w), Xor(tc, td), 0);
    MixIsLinear(tc, td, 0);
    XorExchange(Shl(lc, 5) + v, Shl(ld, 5) + w, Mix(tc, 0), Mix(td, 0));
  }

  /** The checksum of a symbolwise exclusive or is the exclusive or of the
      checksums. */
  lemma {:induction false} PolymodIsLinear(c: nat, d: nat, a: seq<symbol>, b: seq<symbol>)
    requires |a| == |b|
    ensures PolyFrom(Xor(c, d), XorSymbols(a, b)) == Xor(PolyFrom(c, a), PolyFrom(d, b))
    decreases a
  {
    hide PolyStep, Xor;
    if a != [] {
      StepIsLinear(c, d, a[0], b[0]);
      PolymodIsLinear(PolyStep(c, a[0]), PolyStep(d, b[0]), a[1..], b[1..]);
      assert XorSymbols(a, b)[1..] == XorSymbols(a[1..], b[1..]);
    }
  }

  lemma {:induction false} PolyConcat(c: nat, a: seq<symbol>, b: seq<symbol>)
    ensures PolyFrom(c, a + b) == PolyFrom(PolyFrom(c, a), b)
    decreases a
  {
    hide PolyStep;
    if a == [] {
      assert a + b == b;
    } else {
      PolyConcat(PolyStep(c, a[0]), a[1..], b);
      assert (a + b)[1..] == a[1..] + b && (a + b)[0] == a[0];
    }
  }

  // ----- Eight symbols as one 40-bit value -----

  /** Symbols read as one number, most significant first. */
  function Pack(acc: nat, values: seq<symbol>): nat
    decreases values
  {
    if values == [] then acc else Pack(Shl(acc, 5) + values[0], values[1..])
  }

  lemma Mix0(index: nat)
    requires index <= 5
    ensures Mix(0, index) == 0
    decreases 5 - index
  {
    if index < 5 {
      ShrOfZero(index);
      Mix0(index + 1);
    }
  }

  lemma {:induction false} ShrOfZero(n: nat)
    ensures Shr(0, n) == 0
  {
    if n > 0 { ShrOfZero(n - 1); }
  }

  lemma AppendSymbolFits(acc: nat, v: symbol, n: nat)
    requires acc < Pow2(n)
    ensures Shl(acc, 5) + v < Pow2(n + 5)
  {
    assert Pow2(5) == 32;
    ShlAdd(acc, v, 5);
    FitsBits(acc, n);
    ShrShr(Shl(acc, 5) + v, 5, n);
    FitsBits(Shl(acc, 5) + v, n + 5);
  }

  lemma Pow2Grows(m: nat, n: nat)
    requires m <= n
    ensures Pow2(m) <= Pow2(n)
  {
  }

  /** Until the state is full, symbols only shift in. */
  lemma {:induction false} PolyPacks(acc: nat, values: seq<symbol>, n: nat)
    requires acc < Pow2(n) && n + 5 * |values| <= 40
    ensures PolyFrom(acc, values) == Pack(acc, values) < Pow2(n + 5 * |values|)
    decreases |values|
  {
    hide Xor, Shl, Shr, Low, Mix, ApplyGenerators, Pow2;
    if values != [] {
      Pow2Grows(n, 35);
      FitsBits(acc, 35);
      Mix0(0);
      GeneratorsMix(Shl(acc, 5) + values[0], 0, 0);
      XorBasics(Shl(acc, 5) + values[0], 0);
      AppendSymbolFits(acc, values[0], n);
      PolyPacks(Shl(acc, 5) + values[0], values[1..], n + 5);
    }
  }

  /** The symbol of a 40-bit checksum at `index`: `(checksum >> 5 * (7 - index)) & 0x1f`. */
  function ChecksumSymbol(checksum: nat, index: nat): symbol
    requires index < CHECKSUM_LEN
  {
    assert Low(Shr(checksum, 5 * (7 - index)), 5) < 32 by {
      assert Pow2(5) == 32;
      FitsBits(Shr(checksum, 5 * (7 - index)), 5);
    }
    Low(Shr(checksum, 5 * (7 - index)), 5)
  }

  function ChecksumSymbols(checksum: nat): (symbols: seq<symbol>) {
    seq(CHECKSUM_LEN, i requires 0 <= i < CHECKSUM_LEN => ChecksumSymbol(checksum, i))
  }

  /** Packing the symbols from `index` on restores the low bits. */
  lemma {:induction false} PackFrom(checksum: nat, index: nat)
    requires index <= 8
    ensures Pack(Shr(checksum, 5 * (8 - index)), ChecksumSymbols(checksum)[index..]) == checksum
    decreases 8 - index
  {
    if index < 8 {
      var symbols := ChecksumSymbols(checksum);
      var rest := Shr(checksum, 5 * (7 - index));
      SplitAt(rest, 5);
      ShrShr(checksum, 5 * (7 - index), 5);
      assert symbols[index..][1..] == symbols[index + 1..];
      PackFrom(checksum, index + 1);
    }
  }

  lemma SymbolsPack(checksum: nat)
    requires checksum < Pow2(40)
    ensures Pack(0, ChecksumSymbols(checksum)) == checksum
  {
    FitsBits(checksum, 40);
    PackFrom(checksum, 0);
    assert ChecksumSymbols(checksum)[0..] == ChecksumSymbols(checksum);
  }

  /** A packed value determines its symbols. */
  lemma {:induction false} PackInjective(acc: nat, acc': nat, a: seq<symbol>, b: seq<symbol>)
    requires |a| == |b| && Pack(acc, a) == Pack(acc', b)
    ensures acc == acc' && a == b
    decreases |a|
  {
    if a != [] {
      PackInjective(Shl(acc, 5) + a[0], Shl(acc', 5) + b[0], a[1..], b[1..]);
      assert Pow2(5) == 32;
      ShlAdd(acc, a[0], 5);
      ShlAdd(acc', b[0], 5);
      assert a == [a[0]] + a[1..] && b == [b[0]] + b[1..];
    }
  }

  // ----- Creating and verifying -----

  /** `byte & 0x1f` of every prefix character, then the separator's zero. */
  function PrefixSymbols(prefix: string): seq<symbol> {
    seq(|prefix|, i requires 0 <= i < |prefix| => prefix[i] as int % 32) + [0]
  }

  function Zeros(n: nat): seq<symbol> {
    seq(n, _ => 0)
  }

  function CreateChecksum(prefix: string, payload: seq<symbol>): nat {
    Xor(Polymod(PrefixSymbols(prefix) + payload + Zeros(CHECKSUM_LEN)), 1)
  }

  predicate VerifyChecksum(prefix: string, values: seq<symbol>) {
    Polymod(PrefixSymbols(prefix) + values) == 1
  }

  lemma {:induction false} XorZeros(values: seq<symbol>)
    ensures XorSymbols(Zeros(|values|), values) == values
  {
    if values != [] {
      XorBasics(values[0], 0);
      XorZeros(values[1..]);
      assert Zeros(|values|)[1..] == Zeros(|values| - 1);
    }
  }

  /** Any eight last symbols shift the checksum of eight zeros by their value. */
  lemma TailAdds(state: nat, tail: seq<symbol>)
    requires |tail| == CHECKSUM_LEN
    ensures PolyFrom(state, tail) == Xor(PolyFrom(state, Zeros(8)), Pack(0, tail))
  {
    XorZeros(tail);
    XorBasics(state, 0);
    PolymodIsLinear(state, 0, Zeros(8), tail);
    PolyPacks(0, tail, 0);
  }

  /** Of all strings of eight symbols exactly one, the checksum's own, makes the
      address verify. */
  lemma ChecksumIsUnique(prefix: string, payload: seq<symbol>, tail: seq<symbol>)
    requires |tail| == CHECKSUM_LEN
    ensures VerifyChecksum(prefix, payload + tail) <==> tail == ChecksumSymbols(CreateChecksum(prefix, payload))
  {
    hide Xor, PolyFrom, Pack, Pow2, PrefixSymbols, ChecksumSymbol;
    Pow2Of40();
    var head := PrefixSymbols(prefix) + payload;
    var state := Polymod(head);
    var open := PolyFrom(state, Zeros(8));
    assert PrefixSymbols(prefix) + (payload + tail) == head + tail;
    PolyConcat(1, head, tail);
    PolyConcat(1, head, Zeros(8));
    TailAdds(state, tail);
    var created := Xor(open, 1);
    StatesFit(1, head + Zeros(8));
    XorFits(open, 1, 40);
    SymbolsPack(created);
    // Pack(tail) closes the sum to 1 exactly when it is the created checksum.
    XorCancels(1, Pack(0, tail));
    XorCancels(created, 1);
    if Xor(open, Pack(0, tail)) == 1 {
      XorCancels(open, Pack(0, tail));
      XorBasics(1, Pack(0, tail));
      XorAssociates(open, 1, 1);
      XorAssociates(open, Pack(0, tail), 1);
      SumDetermines(open, Pack(0, tail));
      PackInjective(0, 0, tail, ChecksumSymbols(created));
    } else if tail == ChecksumSymbols(created) {
      XorAssociates(open, open, 1);
      XorBasics(open, open);
      XorBasics(1, 0);
    }
  }

  lemma SumDetermines(open: nat, packed: nat)
    requires Xor(open, packed) == 1
    ensures packed == Xor(open, 1)
  {
    XorAssociates(open, open, packed);
    XorBasics(open, open);
    XorBasics(packed, 0);
  }
}
