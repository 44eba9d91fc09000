/** Regrouping a stream of bits into values of another width
    (src/primitives/address/mod.rs, `convert_bits`). */
module AddressBits {
  import opened Common
  import opened Bits

  datatype AddressError =
    | UnknownPrefix
    | TooShort
    | InvalidCharacter
    | ChecksumMismatch
    | InvalidValue
    | InvalidPadding
    | EmptyPayload
    | UnknownVersion
    | InvalidPayloadLength

  /** The bits of a `u32`. */
  const WORD: nat := 32

  predicate Fit(values: seq<nat>, width: nat) {
    forall i :: 0 <= i < |values| ==> values[i] < Pow2(width)
  }

  /** All bits of `values`, `width` each, most significant first. */
  function AllBits(values: seq<nat>, width: nat): seq<bool> {
    if values == [] then [] else BitsOf(values[0], width) + AllBits(values[1..], width)
  }

  function NoBits(n: nat): seq<bool> {
    seq(n, _ => false)
  }

  // ----- The conversion -----

  /** Values of `to` bits taken from the top of the `bits` live bits. */
  function Drain(accumulator: nat, bits: nat, to: nat): seq<nat>
    requires to > 0
    decreases bits
  {
    if bits < to then []
    else [Low(Shr(accumulator, bits - to), to)] + Drain(accumulator, bits - to, to)
  }

  /** The live bits left after draining. */
  function Undrained(bits: nat, to: nat): (left: nat)
    requires to > 0
    ensures left < to && left <= bits
    decreases bits
  {
    if bits < to then bits else Undrained(bits - to, to)
  }

  /** `(accumulator << from) + value` in a `u32`: old bits shift out. */
  function ShiftIn(accumulator: nat, from: nat, value: nat): nat {
    Low(Shl(accumulator, from), WORD) + value
  }

  /** What is left of the stream: the values put out, the accumulator and its
      number of live bits. */
  datatype Stream = Stream(output: seq<nat>, accumulator: nat, bits: nat)

  function ConvertAll(data: seq<nat>, from: nat, to: nat, accumulator: nat, bits: nat): (r: Result<Stream, AddressError>)
    requires to > 0 && bits < to
    ensures r.Ok? ==> r.value.bits < to
    decreases data
  {
    if data == [] then Ok(Stream([], accumulator, bits))
    else if Shr(data[0], from) != 0 then Err(InvalidValue)
    else
      var next := ShiftIn(accumulator, from, data[0]);
      var rest :- ConvertAll(data[1..], from, to, next, Undrained(bits + from, to));
      Ok(rest.(output := Drain(next, bits + from, to) + rest.output))
  }

  /** The bits that do not fill a value of `to` bits, moved to its top. */
  function LeftAligned(s: Stream, to: nat): nat
    requires s.bits <= to
  {
    Low(Low(Shl(s.accumulator, to - s.bits), WORD), to)
  }

  function ConvertBits(data: seq<nat>, from: nat, to: nat, pad: bool): Result<seq<nat>, AddressError>
    requires to > 0
  {
    var s :- ConvertAll(data, from, to, 0, 0);
    if pad then Ok(s.output + if s.bits > 0 then [LeftAligned(s, to)] else [])
    else if s.bits >= from || LeftAligned(s, to) != 0 then Err(InvalidPadding)
    else Ok(s.output)
  }

  /** The inner loop: whole values leave the accumulator. */
  method ComputeDrain(output: seq<nat>, accumulator: nat, bits: nat, to: nat) returns (output': seq<nat>, bits': nat)
    requires to > 0
    ensures output' == output + Drain(accumulator, bits, to) && bits' == Undrained(bits, to)
  {
    hide Low, Shr;
    output', bits' := output, bits;
    while bits' >= to
      invariant output' + Drain(accumulator, bits', to) == output + Drain(accumulator, bits, to)
      invariant Undrained(bits', to) == Undrained(bits, to)
    {
      ghost var rest := Drain(accumulator, bits' - to, to);
      bits' := bits' - to;
      Reassociate(output', [Low(Shr(accumulator, bits'), to)], rest);
      output' := output' + [Low(Shr(accumulator, bits'), to)];
    }
    assert output' + [] == output';
  }

  /** The conversion as the source loops over it. */
  method ComputeConvertBits(data: seq<nat>, from: nat, to: nat, pad: bool) returns (r: Result<seq<nat>, AddressError>)
    requires to > 0
    ensures r == ConvertBits(data, from, to, pad)
  {
    hide Low, Shl, Shr, ShiftIn, LeftAligned;
    var output: seq<nat> := [];
    var accumulator: nat := 0;
    var bits: nat := 0;
    ghost var whole := ConvertAll(data, from, to, 0, 0);
    assert whole.Ok? ==> [] + whole.value.output == whole.value.output;
    for i := 0 to |data|
      invariant bits < to
      invariant whole == match ConvertAll(data[i..], from, to, accumulator, bits)
                         case Ok(rest) => Ok(rest.(output := output + rest.output))
                         case Err(e) => Err(e)
    {
      var value := data[i];
      assert data[i..][0] == value && data[i..][1..] == data[i + 1..];
      if Shr(value, from) != 0 { return Err(InvalidValue); }
      accumulator := ShiftIn(accumulator, from, value);
      bits := bits + from;
      ghost var before, drained := output, Drain(accumulator, bits, to);
      output, bits := ComputeDrain(output, accumulator, bits, to);
      ghost var rest := ConvertAll(data[i + 1..], from, to, accumulator, bits);
      if rest.Ok? { Reassociate(before, drained, rest.value.output); }
    }
    assert output + [] == output;
    var s := Stream(output, accumulator, bits);
    if pad {
      if bits > 0 { output := output + [LeftAligned(s, to)]; }
    } else if bits >= from || LeftAligned(s, to) != 0 {
      return Err(InvalidPadding);
    }
    return Ok(output);
  }

  // ----- What the conversion means -----

  lemma {:induction false} AllBitsConcat(a: seq<nat>, b: seq<nat>, width: nat)
    ensures AllBits(a + b, width) == AllBits(a, width) + AllBits(b, width)
  {
    if a == [] {
      assert a + b == b;
    } else {
      AllBitsConcat(a[1..], b, width);
      assert (a + b)[1..] == a[1..] + b && (a + b)[0] == a[0];
    }
  }

  lemma {:induction false} DrainMeans(accumulator: nat, bits: nat, to: nat)
    requires to > 0
    ensures Fit(Drain(accumulator, bits, to), to)
    ensures BitsOf(accumulator, bits)
            == AllBits(Drain(accumulator, bits, to), to) + BitsOf(accumulator, Undrained(bits, to))
    decreases bits
  {
    hide Low, Shr, BitsOf, Pow2;
    if bits >= to {
      var rest := Drain(accumulator, bits - to, to);
      var top := Shr(accumulator, bits - to);
      DrainMeans(accumulator, bits - to, to);
      BitsOfSplit(accumulator, to, bits - to);
      BitsOfLow(top, to, to);
      FitsBits(top, to);
      var drained := Drain(accumulator, bits, to);
      assert drained[0] == Low(top, to) && drained[1..] == rest;
      assert AllBits(drained, to) == BitsOf(Low(top, to), to) + AllBits(rest, to);
      Reassociate(BitsOf(Low(top, to), to), AllBits(rest, to), BitsOf(accumulator, Undrained(bits, to)));
    } else {
      assert AllBits([], to) == [];
    }
  }

  lemma ShiftInMeans(accumulator: nat, bits: nat, from: nat, value: nat)
    requires value < Pow2(from) && bits + from <= WORD
    ensures BitsOf(ShiftIn(accumulator, from, value), bits + from) == BitsOf(accumulator, bits) + BitsOf(value, from)
  {
    var kept := Low(accumulator, WORD - from);
    LowOfShl(accumulator, from, WORD - from);
    BitsOfAppend(kept, bits, value, from);
    BitsOfLow(accumulator, bits, WORD - from);
  }

  lemma {:induction false} LowOfShl(a: nat, n: nat, m: nat)
    ensures Low(Shl(a, n), n + m) == Shl(Low(a, m), n)
  {
    if n > 0 {
      LowOfShl(a, n - 1, m);
      LowOfDouble(Shl(a, n - 1), n - 1 + m);
      hide Low;
    }
  }

  lemma LowOfDouble(x: nat, k: nat)
    ensures Low(2 * x, k + 1) == 2 * Low(x, k)
  {
  }

  /** Nothing is lost in the stream: what was put out and what is still live
      spell the live bits at the start and all the data. */
  lemma {:induction false} StreamMeans(data: seq<nat>, from: nat, to: nat, accumulator: nat, bits: nat)
    requires 0 < to && bits < to && from + to <= WORD
    ensures Fit(data, from) <==> ConvertAll(data, from, to, accumulator, bits).Ok?
    ensures ConvertAll(data, from, to, accumulator, bits).Err? ==>
              ConvertAll(data, from, to, accumulator, bits).error == InvalidValue
    ensures Fit(data, from) ==>
              var s := ConvertAll(data, from, to, accumulator, bits).value;
              && Fit(s.output, to)
              && BitsOf(accumulator, bits) + AllBits(data, from) == AllBits(s.output, to) + BitsOf(s.accumulator, s.bits)
    decreases data
  {
    hide Low, Shl, Shr, BitsOf, Drain, ShiftIn, Pow2, Undrained;
    if data == [] {
      assert AllBits([], from) == [] && AllBits([], to) == [];
    } else {
      FitsBits(data[0], from);
      if data[0] < Pow2(from) {
        var next, left := ShiftIn(accumulator, from, data[0]), Undrained(bits + from, to);
        StreamMeans(data[1..], from, to, next, left);
        assert Fit(data, from) <==> Fit(data[1..], from);
        if Fit(data, from) {
          var rest := ConvertAll(data[1..], from, to, next, left).value;
          var drained := Drain(next, bits + from, to);
          ShiftInMeans(accumulator, bits, from, data[0]);
          DrainMeans(next, bits + from, to);
          AllBitsConcat(drained, rest.output, to);
          Reassociate(BitsOf(accumulator, bits), BitsOf(data[0], from), AllBits(data[1..], from));
          Reassociate(AllBits(drained, to), BitsOf(next, left), AllBits(data[1..], from));
          Reassociate(AllBits(drained, to), AllBits(rest.output, to), BitsOf(rest.accumulator, rest.bits));
        }
      }
    }
  }

  lemma Reassociate<T>(a: seq<T>, b: seq<T>, c: seq<T>)
    ensures (a + b) + c == a + (b + c)
  {
  }

  lemma LeftAlignedBits(s: Stream, to: nat)
    requires s.bits <= to <= WORD
    ensures LeftAligned(s, to) < Pow2(to)
    ensures BitsOf(LeftAligned(s, to), to) == BitsOf(s.accumulator, s.bits) + NoBits(to - s.bits)
  {
    hide BitsOf, Shl, Low, Pow2;
    var gap := to - s.bits;
    var shifted := Shl(s.accumulator, gap);
    FitsBits(Low(shifted, WORD), to);
    BitsOfLow(Low(shifted, WORD), to, to);
    BitsOfLow(shifted, to, WORD);
    NothingBelow(s.accumulator, s.bits, gap);
  }

  lemma NothingBelow(accumulator: nat, bits: nat, gap: nat)
    ensures BitsOf(Shl(accumulator, gap), bits + gap) == BitsOf(accumulator, bits) + NoBits(gap)
  {
    hide BitsOf, Shl;
    BitsOfAppend(accumulator, bits, 0, gap);
    ZeroBits(gap);
  }

  /** The left-aligned rest spells the live bits and zeros; it is zero exactly
      when they all are. */
  lemma LeftAlignedMeans(s: Stream, to: nat)
    requires s.bits <= to <= WORD
    ensures LeftAligned(s, to) < Pow2(to)
    ensures BitsOf(LeftAligned(s, to), to) == BitsOf(s.accumulator, s.bits) + NoBits(to - s.bits)
    ensures LeftAligned(s, to) == 0 <==> BitsOf(s.accumulator, s.bits) == NoBits(s.bits)
  {
    hide LeftAligned, BitsOf, Pow2;
    LeftAlignedBits(s, to);
    ZeroBits(to);
    assert NoBits(to) == NoBits(s.bits) + NoBits(to - s.bits);
    if BitsOf(s.accumulator, s.bits) == NoBits(s.bits) {
      BitsInjective(LeftAligned(s, to), 0, to);
    }
    if LeftAligned(s, to) == 0 {
      assert BitsOf(s.accumulator, s.bits) == NoBits(to)[..s.bits];
    }
  }

  /** A stream splits into whole values and a shorter rest in one way only. */
  lemma {:induction false} SplitIsUnique(a: seq<nat>, b: seq<nat>, x: seq<bool>, y: seq<bool>, width: nat)
    requires 0 < width && |x| < width && |y| < width && Fit(a, width) && Fit(b, width)
    requires AllBits(a, width) + x == AllBits(b, width) + y
    ensures a == b && x == y
    decreases a
  {
    if a == [] || b == [] {
      Whole(a, width);
      Whole(b, width);
      assert |AllBits(a, width) + x| == |AllBits(b, width) + y|;
      assert AllBits(a, width) + x == x && AllBits(b, width) + y == y;
    } else {
      var p, q := BitsOf(a[0], width), BitsOf(b[0], width);
      Reassociate(p, AllBits(a[1..], width), x);
      Reassociate(q, AllBits(b[1..], width), y);
      var s, t := p + (AllBits(a[1..], width) + x), q + (AllBits(b[1..], width) + y);
      assert s == t;
      assert s[..width] == p && t[..width] == q;
      assert s[width..] == AllBits(a[1..], width) + x && t[width..] == AllBits(b[1..], width) + y;
      BitsInjective(a[0], b[0], width);
      SplitIsUnique(a[1..], b[1..], x, y, width);
      assert a == [a[0]] + a[1..] && b == [b[0]] + b[1..];
    }
  }

  /** `narrow` spells `wide` and then fewer than one narrow value of zeros. */
  ghost predicate Regroups(narrow: seq<nat>, n: nat, wide: seq<nat>, w: nat) {
    exists zeros: nat :: zeros < n && AllBits(narrow, n) == AllBits(wide, w) + NoBits(zeros)
  }

  lemma PadRegroups(wide: seq<nat>, w: nat, n: nat)
    requires 0 < n && w + n <= WORD && Fit(wide, w)
    ensures var r := ConvertBits(wide, w, n, true);
            r.Ok? && Fit(r.value, n) && Regroups(r.value, n, wide, w)
  {
    hide ConvertAll, LeftAligned, Pow2, AllBits;
    StreamMeans(wide, w, n, 0, 0);
    var s := ConvertAll(wide, w, n, 0, 0).value;
    var live := BitsOf(s.accumulator, s.bits);
    LeftAlignedMeans(s, n);
    var zeros: nat := if s.bits > 0 then n - s.bits else 0;
    assert BitsOf(0, 0) + AllBits(wide, w) == AllBits(wide, w);
    var last := if s.bits > 0 then [LeftAligned(s, n)] else [];
    OneOrNone(last, n);
    AllBitsConcat(s.output, last, n);
    Reassociate(AllBits(s.output, n), live, NoBits(zeros));
    assert AllBits(s.output + last, n) == AllBits(wide, w) + NoBits(zeros);
  }

  lemma OneOrNone(values: seq<nat>, n: nat)
    requires |values| <= 1
    ensures AllBits(values, n) == if values == [] then [] else BitsOf(values[0], n)
  {
    if values != [] { assert values[1..] == []; }
  }

  lemma RegroupsOneWay(a: seq<nat>, b: seq<nat>, n: nat, wide: seq<nat>, w: nat)
    requires 0 < n && Fit(a, n) && Fit(b, n) && Regroups(a, n, wide, w) && Regroups(b, n, wide, w)
    ensures a == b
  {
    hide AllBits, Fit;
    var j: nat :| j < n && AllBits(a, n) == AllBits(wide, w) + NoBits(j);
    var k: nat :| k < n && AllBits(b, n) == AllBits(wide, w) + NoBits(k);
    SameLength(a, b, n, |AllBits(wide, w)|, j, k);
    assert AllBits(a, n) + [] == AllBits(b, n) + [];
    SplitIsUnique(a, b, [], [], n);
  }

  /** Padding conversion to narrower values answers exactly the regrouping. */
  lemma PadMeans(wide: seq<nat>, w: nat, narrow: seq<nat>, n: nat)
    requires 0 < n && w + n <= WORD && Fit(wide, w)
    ensures ConvertBits(wide, w, n, true) == Ok(narrow) <==> Fit(narrow, n) && Regroups(narrow, n, wide, w)
  {
    hide ConvertBits, Regroups, Fit;
    PadRegroups(wide, w, n);
    if Fit(narrow, n) && Regroups(narrow, n, wide, w) {
      RegroupsOneWay(narrow, ConvertBits(wide, w, n, true).value, n, wide, w);
    }
  }

  /** Fewer than one value of zeros fill a stream up in one way only. */
  lemma {:induction false} SameLength(a: seq<nat>, b: seq<nat>, n: nat, total: nat, j: nat, k: nat)
    requires 0 < n && j < n && k < n && |AllBits(a, n)| == total + j && |AllBits(b, n)| == total + k
    ensures j == k
    decreases a
  {
    Whole(a, n);
    Whole(b, n);
    if a != [] && b != [] {
      Whole(a[1..], n);
      Whole(b[1..], n);
      if total >= n { SameLength(a[1..], b[1..], n, total - n, j, k); }
    }
  }

  lemma Whole(a: seq<nat>, n: nat)
    ensures a == [] ==> |AllBits(a, n)| == 0
    ensures a != [] ==> |AllBits(a, n)| == n + |AllBits(a[1..], n)|
  {
  }

  /** Conversion back to wider values succeeds on exactly the regroupings. */
  lemma NoPadMeans(narrow: seq<nat>, n: nat, wide: seq<nat>, w: nat)
    requires 0 < n <= w && w + n <= WORD
    ensures ConvertBits(narrow, n, w, false) == Ok(wide) <==>
            Fit(narrow, n) && Fit(wide, w) && Regroups(narrow, n, wide, w)
  {
    StreamMeans(narrow, n, w, 0, 0);
    if Fit(narrow, n) {
      var s := ConvertAll(narrow, n, w, 0, 0).value;
      var live := BitsOf(s.accumulator, s.bits);
      LeftAlignedMeans(s, w);
      assert BitsOf(0, 0) + AllBits(narrow, n) == AllBits(narrow, n);
      if Fit(wide, w) && Regroups(narrow, n, wide, w) {
        var k: nat :| k < n && AllBits(narrow, n) == AllBits(wide, w) + NoBits(k);
        SplitIsUnique(s.output, wide, live, NoBits(k), w);
      }
    }
  }
}
