/** What the checksum of an address is for: a mistyped address is refused. */
module AddressDetection {
  import opened Common
  import opened Bits
  import opened AddressBits
  import opened AddressChecksum
  import opened AddressField
  import opened Address

  /** Nothing is lost in a step: the state before it can be told from the one after. */
  lemma StepIsInjective(c: nat, d: nat, v: symbol)
    requires c < Pow2(40) && d < Pow2(40) && PolyStep(c, v) == PolyStep(d, v)
    ensures c == d
  {
    hide PolyStep, Pow2, ChecksumSymbol, Plus, Times, Generator;
    SameTop(c, d, v);
    forall i | 0 <= i < 8 ensures ChecksumSymbols(c)[i] == ChecksumSymbols(d)[i] {
      if i > 0 {
        var g := Times(Generator(i - 1), ChecksumSymbol(c, 0));
        StepIsRemainder(c, v, i - 1);
        StepIsRemainder(d, v, i - 1);
        PlusLaws(ChecksumSymbol(c, i), g, 0);
        PlusLaws(ChecksumSymbol(d, i), g, 0);
      }
    }
    SymbolsPack(c);
    SymbolsPack(d);
    assert ChecksumSymbols(c) == ChecksumSymbols(d);
  }

  /** The generator ends in 1, so the last symbol tells what left at the top. */
  lemma SameTop(c: nat, d: nat, v: symbol)
    requires c < Pow2(40) && d < Pow2(40) && PolyStep(c, v) == PolyStep(d, v)
    ensures ChecksumSymbol(c, 0) == ChecksumSymbol(d, 0)
  {
    hide PolyStep, Pow2, ChecksumSymbol, Plus, Times;
    StepIsRemainder(c, v, 7);
    StepIsRemainder(d, v, 7);
    var s, t := ChecksumSymbol(c, 0), ChecksumSymbol(d, 0);
    TimesOne(s);
    TimesOne(t);
    PlusLaws(v, s, 0);
    PlusLaws(v, t, 0);
    PlusLaws(s, v, 0);
    PlusLaws(t, v, 0);
  }

  lemma {:induction false} RestIsInjective(c: nat, d: nat, rest: seq<symbol>)
    requires c < Pow2(40) && d < Pow2(40) && PolyFrom(c, rest) == PolyFrom(d, rest)
    ensures c == d
    decreases rest
  {
    hide PolyStep, Pow2;
    if rest != [] {
      StatesFit(c, [rest[0]]);
      StatesFit(d, [rest[0]]);
      RestIsInjective(PolyStep(c, rest[0]), PolyStep(d, rest[0]), rest[1..]);
      StepIsInjective(c, d, rest[0]);
    }
  }

  /** Up to eight symbols shift a state by their value. */
  lemma BurstAdds(state: nat, burst: seq<symbol>)
    requires |burst| <= 8
    ensures PolyFrom(state, burst) == Xor(PolyFrom(state, Zeros(|burst|)), Pack(0, burst))
  {
    XorZeros(burst);
    XorBasics(state, 0);
    PolymodIsLinear(state, 0, Zeros(|burst|), burst);
    PolyPacks(0, burst, 0);
  }

  /** Two spans of at most eight symbols between the same symbols never have the
      same checksum unless they are the same. */
  lemma BurstsAreDetected(before: seq<symbol>, a: seq<symbol>, b: seq<symbol>, after: seq<symbol>)
    requires |a| == |b| <= 8 && Polymod(before + a + after) == Polymod(before + b + after)
    ensures a == b
  {
    hide PolyFrom, Pow2, Pack, Xor;
    var state := PolyFrom(1, before);
    PolyConcat(1, before + a, after);
    PolyConcat(1, before, a);
    PolyConcat(1, before + b, after);
    PolyConcat(1, before, b);
    OneFits();
    StatesFit(1, before + a);
    StatesFit(1, before + b);
    RestIsInjective(PolyFrom(state, a), PolyFrom(state, b), after);
    BurstAdds(state, a);
    BurstAdds(state, b);
    var open := PolyFrom(state, Zeros(|a|));
    XorBasics(open, Pack(0, a));
    XorBasics(open, Pack(0, b));
    XorCancels(Pack(0, a), open);
    XorCancels(Pack(0, b), open);
    PackInjective(0, 0, a, b);
  }

  /** They have the same length and differ, if at all, within eight places from `at`. */
  predicate DifferWithin<T(==)>(a: seq<T>, b: seq<T>, at: nat) {
    |a| == |b| && forall i :: 0 <= i < |a| && !(at <= i < at + 8) ==> a[i] == b[i]
  }

  /** Of symbols that verify under a prefix, none is another one with up to eight
      consecutive symbols wrong. */
  lemma MistypedSymbolsAreRefused(prefix: string, a: seq<symbol>, b: seq<symbol>, at: nat)
    requires DifferWithin(a, b, at) && VerifyChecksum(prefix, a) && VerifyChecksum(prefix, b)
    ensures a == b
  {
    if at < |a| {
      hide Polymod;
      var end := if at + 8 <= |a| then at + 8 else |a|;
      var before := PrefixSymbols(prefix) + a[..at];
      assert a[..at] == b[..at] && a[end..] == b[end..];
      assert PrefixSymbols(prefix) + a == before + a[at..end] + a[end..];
      assert PrefixSymbols(prefix) + b == before + b[at..end] + b[end..];
      BurstsAreDetected(before, a[at..end], b[at..end], a[end..]);
      assert a == a[..at] + a[at..end] + a[end..] && b == b[..at] + b[at..end] + b[end..];
    }
  }

  /** An accepted address never turns into another accepted one of the same prefix
      by mistyping up to eight consecutive characters of its data. */
  lemma MistypedAddressesAreRefused(prefix: string, data: string, typed: string, at: nat)
    requires prefix in PREFIXES && DifferWithin(data, typed, at)
    requires Decode(prefix + ":" + data).Ok? && Decode(prefix + ":" + typed).Ok?
    ensures data == typed
  {
    hide VerifyChecksum, DataBytes, PayloadLength;
    PrefixesHaveNoColon(prefix);
    SplitAtFirstColon(prefix, data);
    SplitAtFirstColon(prefix, typed);
    var a, b := DecodeChars(data).value, DecodeChars(typed).value;
    CharsRoundTrip(a, data);
    CharsRoundTrip(b, typed);
    CharsetIsDistinct();
    assert forall i :: 0 <= i < |a| ==> data[i] == CHARSET[a[i]] && typed[i] == CHARSET[b[i]];
    assert DifferWithin(a, b, at);
    MistypedSymbolsAreRefused(prefix, a, b, at);
  }

  // ----- Networks -----

  /** The symbols of the state after one more symbol. */
  function NextSymbols(s: seq<symbol>, v: symbol): (next: seq<symbol>)
    requires |s| == 8
    ensures |next| == 8
  {
    seq(8, i requires 0 <= i < 8 => Plus(if i < 7 then s[i + 1] else v, Times(Generator(i), s[0])))
  }

  lemma StepSymbols(c: nat, v: symbol)
    requires c < Pow2(40)
    ensures ChecksumSymbols(PolyStep(c, v)) == NextSymbols(ChecksumSymbols(c), v)
  {
    hide PolyStep, Pow2, ChecksumSymbol, Plus, Times, Generator;
    forall i | 0 <= i < 8 ensures ChecksumSymbols(PolyStep(c, v))[i] == NextSymbols(ChecksumSymbols(c), v)[i] {
      StepIsRemainder(c, v, i);
    }
  }

  /** The symbols of the state after more symbols. */
  function SymbolsAfter(s: seq<symbol>, values: seq<symbol>): (next: seq<symbol>)
    requires |s| == 8
    ensures |next| == 8
    decreases values
  {
    if values == [] then s else SymbolsAfter(NextSymbols(s, values[0]), values[1..])
  }

  lemma {:induction false} StateSymbols(c: nat, values: seq<symbol>)
    requires c < Pow2(40)
    ensures ChecksumSymbols(PolyFrom(c, values)) == SymbolsAfter(ChecksumSymbols(c), values)
    decreases values
  {
    hide PolyStep, Pow2, ChecksumSymbols, NextSymbols;
    if values != [] {
      StatesFit(c, [values[0]]);
      StepSymbols(c, values[0]);
      StateSymbols(PolyStep(c, values[0]), values[1..]);
    }
  }

  /** While nothing leaves at the top, symbols only move up. */
  lemma MovesUp(s: seq<symbol>, v: symbol)
    requires |s| == 8 && s[0] == 0
    ensures NextSymbols(s, v) == s[1..] + [v]
  {
    hide Plus, Generator;
    forall i | 0 <= i < 8 ensures NextSymbols(s, v)[i] == (s[1..] + [v])[i] {
      PlusLaws(if i < 7 then s[i + 1] else v, 0, 0);
    }
  }

  lemma AfterFirst(s: seq<symbol>, v: symbol, rest: seq<symbol>)
    requires |s| == 8
    ensures SymbolsAfter(s, [v] + rest) == SymbolsAfter(NextSymbols(s, v), rest)
  {
    assert ([v] + rest)[1..] == rest;
  }

  lemma MovesOn(s: seq<symbol>, v: symbol, t: seq<symbol>, rest: seq<symbol>)
    requires |s| == 8 && s[0] == 0 && t == s[1..] + [v]
    ensures SymbolsAfter(s, [v] + rest) == SymbolsAfter(t, rest)
  {
    hide SymbolsAfter, NextSymbols;
    AfterFirst(s, v, rest);
    MovesUp(s, v);
  }

  /** After the symbols of "kaspa". */
  lemma AfterKaspa(rest: seq<symbol>)
    ensures SymbolsAfter(Zeros(7) + [1], [11, 1, 19, 16, 1] + rest) == SymbolsAfter([0, 0, 1, 11, 1, 19, 16, 1], rest)
  {
    hide SymbolsAfter;
    assert Zeros(7) + [1] == [0, 0, 0, 0, 0, 0, 0, 1];
    MovesOn([0, 0, 0, 0, 0, 0, 0, 1], 11, [0, 0, 0, 0, 0, 0, 1, 11], [1, 19, 16, 1] + rest);
    MovesOn([0, 0, 0, 0, 0, 0, 1, 11], 1, [0, 0, 0, 0, 0, 1, 11, 1], [19, 16, 1] + rest);
    MovesOn([0, 0, 0, 0, 0, 1, 11, 1], 19, [0, 0, 0, 0, 1, 11, 1, 19], [16, 1] + rest);
    MovesOn([0, 0, 0, 0, 1, 11, 1, 19], 16, [0, 0, 0, 1, 11, 1, 19, 16], [1] + rest);
    MovesOn([0, 0, 0, 1, 11, 1, 19, 16], 1, [0, 0, 1, 11, 1, 19, 16, 1], rest);
    assert [11, 1, 19, 16, 1] + rest == [11] + ([1, 19, 16, 1] + rest);
    assert [1, 19, 16, 1] + rest == [1] + ([19, 16, 1] + rest);
    assert [19, 16, 1] + rest == [19] + ([16, 1] + rest);
    assert [16, 1] + rest == [16] + ([1] + rest);
  }

  /** A last zero brings what was on top to the end. */
  lemma EndsWithTop(s: seq<symbol>)
    requires |s| == 8
    ensures SymbolsAfter(s, [0])[7] == s[0]
  {
    hide NextSymbols;
    assert [0 as symbol][1..] == [];
    LastSymbol(s);
    assert SymbolsAfter(NextSymbols(s, 0), []) == NextSymbols(s, 0);
  }

  lemma LastSymbol(s: seq<symbol>)
    requires |s| == 8
    ensures NextSymbols(s, 0)[7] == s[0]
  {
    hide Plus, Times;
    TimesOne(s[0]);
    PlusLaws(s[0], 0, 0);
  }

  /** After two more symbols, the leading 1 is on top; what a third one makes of
      the two symbols below it. */
  lemma AfterThree(x: symbol, y: symbol, z: symbol, rest: seq<symbol>)
    ensures var s := SymbolsAfter([0, 0, 1, 11, 1, 19, 16, 1], [x, y, z]);
            && s[0] == 24 && s[1] == 2
            && SymbolsAfter([0, 0, 1, 11, 1, 19, 16, 1], [x, y, z] + rest) == SymbolsAfter(s, rest)
  {
    hide SymbolsAfter, NextSymbols;
    var full: seq<symbol> := [1, 11, 1, 19, 16, 1, x, y];
    MovesOn([0, 0, 1, 11, 1, 19, 16, 1], x, [0, 1, 11, 1, 19, 16, 1, x], [y, z]);
    MovesOn([0, 0, 1, 11, 1, 19, 16, 1], x, [0, 1, 11, 1, 19, 16, 1, x], [y, z] + rest);
    MovesOn([0, 1, 11, 1, 19, 16, 1, x], y, full, [z]);
    MovesOn([0, 1, 11, 1, 19, 16, 1, x], y, full, [z] + rest);
    AfterFirst(full, z, []);
    AfterFirst(full, z, rest);
    AfterNothing(NextSymbols(full, z));
    TopTwo(full, z);
    assert [x, y, z] + rest == [x] + ([y, z] + rest) && [y, z] + rest == [y] + ([z] + rest);
    assert [x, y, z] == [x] + [y, z] && [y, z] == [y] + [z] && [z] == [z] + [];
  }

  lemma AfterNothing(s: seq<symbol>)
    requires |s| == 8
    ensures SymbolsAfter(s, []) == s
  {
  }

  lemma TopTwo(s: seq<symbol>, v: symbol)
    requires |s| == 8 && s[0] == 1 && s[1] == 11 && s[2] == 1
    ensures NextSymbols(s, v)[0] == 24 && NextSymbols(s, v)[1] == 2
  {
    hide Plus, TimesX;
    ZeroTimes();
    PlusLaws(19, 0, 0);
    PlusLaws(3, 0, 0);
    assert Times(19, 1) == 19 && Times(3, 1) == 3;
    SmallSums();
  }

  lemma SmallSums()
    ensures Plus(11, 19) == 24 && Plus(1, 3) == 2 && Plus(19, 15) == 28 && Plus(2, 22) == 20
  {
  }

  /** 19 times 24 in GF(32). */
  lemma Nineteen()
    ensures Times(19, 24) == 22
  {
    hide Plus, TimesX;
    ZeroTimes();
    SmallSums();
    PlusLaws(19, 0, 0);
    PlusLaws(17, 0, 0);
    PlusLaws(11, 0, 0);
    PlusLaws(22, 0, 0);
    Doubled(19);
    Doubled(28);
    Doubled(17);
    Doubled(11);
    assert Times(19, 1) == 19;
    assert Times(19, 3) == 28;
    assert Times(19, 6) == 17;
    assert Times(19, 12) == 11;
  }

  /** The last symbol of the state after a prefix and its separator. */
  function PrefixMark(prefix: string): symbol {
    ChecksumSymbols(Polymod(PrefixSymbols(prefix)))[7]
  }

  lemma MarkOf(prefix: string, rest: seq<symbol>)
    requires PrefixSymbols(prefix) == [11, 1, 19, 16, 1] + rest
    ensures PrefixMark(prefix) == SymbolsAfter([0, 0, 1, 11, 1, 19, 16, 1], rest)[7]
  {
    hide SymbolsAfter, PrefixSymbols, ChecksumSymbols, PolyFrom;
    OneFits();
    OneSpelled();
    StateSymbols(1, PrefixSymbols(prefix));
    AfterKaspa(rest);
  }

  lemma Marks()
    ensures PrefixMark("kaspa") == 0 && PrefixMark("kaspatest") == 20
    ensures PrefixMark("kaspasim") == 24 && PrefixMark("kaspadev") == 24
  {
    hide PrefixMark, SymbolsAfter;
    var s: seq<symbol> := [0, 0, 1, 11, 1, 19, 16, 1];
    Spellings();
    MarkOf("kaspa", [0]);
    EndsWithTop(s);
    MarkOf("kaspasim", [19, 9, 13] + [0]);
    AfterThree(19, 9, 13, [0]);
    EndsWithTop(SymbolsAfter(s, [19, 9, 13]));
    MarkOf("kaspadev", [4, 5, 22] + [0]);
    AfterThree(4, 5, 22, [0]);
    EndsWithTop(SymbolsAfter(s, [4, 5, 22]));
    MarkOf("kaspatest", [20, 5, 19] + [20, 0]);
    AfterThree(20, 5, 19, [20, 0]);
    var t := SymbolsAfter(s, [20, 5, 19]);
    AfterFirst(t, 20, [0]);
    assert [20, 0] == [20] + [0];
    EndsWithTop(NextSymbols(t, 20));
    TopOnce(t, 20);
  }

  lemma TopOnce(s: seq<symbol>, v: symbol)
    requires |s| == 8 && s[0] == 24 && s[1] == 2
    ensures NextSymbols(s, v)[0] == 20
  {
    hide Plus, Times;
    Nineteen();
    SmallSums();
  }

  lemma Spellings()
    ensures PrefixSymbols("kaspa") == [11, 1, 19, 16, 1] + [0]
    ensures PrefixSymbols("kaspasim") == [11, 1, 19, 16, 1] + ([19, 9, 13] + [0])
    ensures PrefixSymbols("kaspadev") == [11, 1, 19, 16, 1] + ([4, 5, 22] + [0])
    ensures PrefixSymbols("kaspatest") == [11, 1, 19, 16, 1] + ([20, 5, 19] + [20, 0])
  {
  }

  /** What verifies under the prefix of one network verifies under no other. */
  lemma NetworksAreApart(prefix: string, other: string, values: seq<symbol>)
    requires prefix in PREFIXES && other in PREFIXES
    requires VerifyChecksum(prefix, values) && VerifyChecksum(other, values)
    ensures prefix == other
  {
    hide PolyFrom, PrefixSymbols, Pow2, ChecksumSymbols;
    var a, b := PrefixSymbols(prefix), PrefixSymbols(other);
    PolyConcat(1, a, values);
    PolyConcat(1, b, values);
    OneFits();
    StatesFit(1, a);
    StatesFit(1, b);
    RestIsInjective(PolyFrom(1, a), PolyFrom(1, b), values);
    Marks();
    assert PrefixMark(prefix) == PrefixMark(other);
    if prefix != other {
      Spellings();
      SimIsNotDev([11, 1, 19, 16, 1]);
    }
  }

  lemma SimIsNotDev(front: seq<symbol>)
    ensures Polymod(front + ([19, 9, 13] + [0])) != Polymod(front + ([4, 5, 22] + [0]))
  {
    hide Polymod;
    var sim: seq<symbol>, dev: seq<symbol> := [19, 9, 13], [4, 5, 22];
    assert sim[0] != dev[0];
    assert front + (sim + [0]) == front + sim + [0] && front + (dev + [0]) == front + dev + [0];
    if Polymod(front + sim + [0]) == Polymod(front + dev + [0]) { BurstsAreDetected(front, sim, dev, [0]); }
  }

  /** So no data are an address of two networks. */
  lemma OneNetworkOnly(prefix: string, other: string, data: string)
    requires prefix in PREFIXES && other in PREFIXES
    requires Decode(prefix + ":" + data).Ok? && Decode(other + ":" + data).Ok?
    ensures prefix == other
  {
    hide VerifyChecksum, DataBytes, PayloadLength, DecodeChars;
    PrefixesHaveNoColon(prefix);
    PrefixesHaveNoColon(other);
    SplitAtFirstColon(prefix, data);
    SplitAtFirstColon(other, data);
    NetworksAreApart(prefix, other, DecodeChars(data).value);
  }
}
