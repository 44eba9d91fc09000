/** Script integers and pushes (src/contract/script/number.rs, push.rs): what the
    builders write and what the readers make of it. */
module ScriptNumber {
  import opened Common
  import opened ScriptElements

  const OP_0: byte := 0x00
  const OP_1: byte := 0x51
  const OP_16: byte := 0x60

  // ----- Little-endian numbers -----

  /** The `n` low bytes of `value`, lowest first. */
  function LeBytes(value: nat, n: nat): (bytes: seq<byte>)
    ensures |bytes| == n
  {
    if n == 0 then [] else [value % 0x100] + LeBytes(value / 0x100, n - 1)
  }

  function Pow256(n: nat): (p: nat)
    ensures p > 0
  {
    if n == 0 then 1 else 0x100 * Pow256(n - 1)
  }

  lemma {:induction false} LeBytesValue(value: nat, n: nat)
    requires value < Pow256(n)
    ensures LittleEndian(LeBytes(value, n)) == value
  {
    if n > 0 {
      assert value / 0x100 < Pow256(n - 1);
      LeBytesValue(value / 0x100, n - 1);
      var bytes := LeBytes(value, n);
      assert bytes[1..] == LeBytes(value / 0x100, n - 1);
    }
  }

  /** The bytes of a number without a leading zero; none for zero. */
  function Digits(value: nat): (bytes: seq<byte>)
    ensures bytes == [] <==> value == 0
    ensures bytes != [] ==> bytes[|bytes| - 1] != 0
    ensures LittleEndian(bytes) == value
  {
    if value == 0 then [] else [value % 0x100] + Digits(value / 0x100)
  }

  lemma LowByte(bytes: seq<byte>)
    requires bytes != []
    ensures LittleEndian(bytes) == bytes[0] + 0x100 * LittleEndian(bytes[1..])
  {
  }

  /** No other bytes without a leading zero have that value. */
  lemma {:induction false} DigitsAreUnique(bytes: seq<byte>)
    requires bytes == [] || bytes[|bytes| - 1] != 0
    ensures Digits(LittleEndian(bytes)) == bytes
  {
    if bytes != [] {
      var first, rest := bytes[0], bytes[1..];
      LowByte(bytes);
      DigitsAreUnique(rest);
      hide LittleEndian, Digits;
      assert bytes == [first] + rest;
      if rest == [] { assert LittleEndian(rest) == 0 by { NoBytes(); } }
      assert LittleEndian(rest) == 0 ==> rest == [];
      DigitsAbove(first, LittleEndian(rest));
    } else {
      NoBytes();
    }
  }

  lemma NoBytes()
    ensures LittleEndian([]) == 0 && Digits(0) == []
  {
  }

  lemma DigitsAbove(low: byte, high: nat)
    requires low != 0 || high != 0
    ensures Digits(low + 0x100 * high) == [low] + Digits(high)
  {
    var value := low + 0x100 * high;
    assert value % 0x100 == low && value / 0x100 == high;
  }

  lemma {:induction false} DigitsFit(value: nat, n: nat)
    requires value < Pow256(n)
    ensures |Digits(value)| <= n
  {
    if value > 0 {
      assert value / 0x100 < Pow256(n - 1);
      DigitsFit(value / 0x100, n - 1);
    }
  }

  /** Whether the highest digit is below `0x80`, that is, needs no sign byte. */
  lemma {:induction false} HighDigit(value: nat, n: nat)
    requires n > 0 && 0 < value < Pow256(n) && |Digits(value)| == n
    ensures Digits(value)[n - 1] >= 0x80 <==> value >= 0x80 * Pow256(n - 1)
  {
    if n > 1 {
      var rest := value / 0x100;
      assert Digits(value) == [value % 0x100] + Digits(rest);
      HighDigit(rest, n - 1);
    }
  }

  lemma {:induction false} AppendZero(bytes: seq<byte>)
    ensures LittleEndian(bytes + [0]) == LittleEndian(bytes)
  {
    if bytes != [] {
      AppendZero(bytes[1..]);
      assert (bytes + [0])[1..] == bytes[1..] + [0];
    } else {
      assert LittleEndian([0]) == 0 + 0x100 * LittleEndian([]) by { assert [0 as byte][1..] == []; }
    }
  }

  // ----- Elements -----

  /** The bytes an integer above sixteen is pushed as: a zero byte keeps the
      sign bit clear. */
  function Minimal(value: nat): seq<byte> {
    var digits := Digits(value);
    if digits != [] && digits[|digits| - 1] >= 0x80 then digits + [0] else digits
  }

  lemma MinimalFits(value: uint64)
    ensures |Minimal(value)| <= 9
  {
    assert Pow256(8) == 0x1_0000_0000_0000_0000 by { PowerEight(); }
    DigitsFit(value, 8);
  }

  lemma PowerEight()
    ensures Pow256(8) == 0x1_0000_0000_0000_0000 && Pow256(7) == 0x100_0000_0000_0000
  {
    assert Pow256(2) == 0x1_0000;
    assert Pow256(4) == 0x1_0000_0000;
    assert Pow256(6) == 0x1_0000_0000_0000;
  }

  /** The element that stands for `value` in a script. */
  function IntElement(value: uint64): Element {
    if value == 0 then Element(OP_0, [])
    else if value <= 16 then Element(0x50 + value, [])
    else
      MinimalFits(value);
      Element(|Minimal(value)|, Minimal(value))
  }

  /** The element that pushes `data`. */
  function DataElement(data: seq<byte>): Element {
    Element(if |data| <= 75 then |data| else if |data| < 0x100 then OP_PUSHDATA1
            else if |data| < 0x1_0000 then OP_PUSHDATA2 else OP_PUSHDATA4, data)
  }

  function OpElement(opcode: byte): Element {
    Element(opcode, [])
  }

  /** An element that can be written: a push holds as many bytes as its opcode
      or length field can say, every other opcode none. */
  predicate Writable(e: Element) {
    if 0x01 <= e.opcode <= 0x4b then |e.data| == e.opcode
    else if e.opcode == OP_PUSHDATA1 then |e.data| < 0x100
    else if e.opcode == OP_PUSHDATA2 then |e.data| < 0x1_0000
    else if e.opcode == OP_PUSHDATA4 then |e.data| < 0x1_0000_0000
    else e.data == []
  }

  /** The bytes of an element. */
  function Written(e: Element): (bytes: seq<byte>)
    ensures |bytes| > 0 && bytes[0] == e.opcode
  {
    if e.opcode == OP_PUSHDATA1 then [e.opcode] + LeBytes(|e.data|, 1) + e.data
    else if e.opcode == OP_PUSHDATA2 then [e.opcode] + LeBytes(|e.data|, 2) + e.data
    else if e.opcode == OP_PUSHDATA4 then [e.opcode] + LeBytes(|e.data|, 4) + e.data
    else [e.opcode] + e.data
  }

  function WrittenAll(elements: seq<Element>): seq<byte> {
    if elements == [] then [] else Written(elements[0]) + WrittenAll(elements[1..])
  }

  lemma {:induction false} WrittenAppend(a: seq<Element>, b: seq<Element>)
    ensures WrittenAll(a + b) == WrittenAll(a) + WrittenAll(b)
  {
    hide Written;
    if a == [] {
      assert a + b == b;
    } else {
      WrittenAppend(a[1..], b);
      assert (a + b)[1..] == a[1..] + b && (a + b)[0] == a[0];
      Assoc(Written(a[0]), WrittenAll(a[1..]), WrittenAll(b));
    }
  }

  lemma Assoc(a: seq<byte>, b: seq<byte>, c: seq<byte>)
    ensures a + b + c == a + (b + c)
  {
  }

  lemma WrittenOne(e: Element)
    ensures WrittenAll([e]) == Written(e)
  {
    assert [e][1..] == [];
  }

  lemma LengthField(n: nat, width: nat, data: seq<byte>, opcode: byte, post: seq<byte>)
    requires n < Pow256(width)
    ensures var script := [opcode] + LeBytes(n, width) + data + post; Little(script, 1, width) == Some(n)
  {
    LeBytesValue(n, width);
    hide LeBytes, LittleEndian;
    var script := [opcode] + LeBytes(n, width) + data + post;
    assert script[1..1 + width] == LeBytes(n, width);
  }

  /** What is written first is read first. */
  lemma ReadsFirst(e: Element, post: seq<byte>)
    requires Writable(e)
    ensures ReadElement(Written(e) + post, 0) == Some((e, |Written(e)|))
  {
    var script, n := Written(e) + post, |Written(e)|;
    hide LittleEndian, LeBytes;
    if e.opcode == OP_PUSHDATA1 {
      assert Pow256(1) == 0x100;
      LengthField(|e.data|, 1, e.data, e.opcode, post);
    } else if e.opcode == OP_PUSHDATA2 {
      assert Pow256(2) == 0x1_0000;
      LengthField(|e.data|, 2, e.data, e.opcode, post);
    } else if e.opcode == OP_PUSHDATA4 {
      assert Pow256(3) == 0x100_0000 && Pow256(4) == 0x1_0000_0000;
      LengthField(|e.data|, 4, e.data, e.opcode, post);
    }
    assert Header(script, 0) == Some((n - |e.data|, |e.data|));
    assert script[n - |e.data|..n] == e.data;
  }

  lemma ReadsNext(pre: seq<byte>, e: Element, post: seq<byte>)
    requires Writable(e)
    ensures ReadElement(pre + Written(e) + post, |pre|) == Some((e, |pre| + |Written(e)|))
  {
    hide Written, ReadElement;
    var script := pre + Written(e) + post;
    ReadsFirst(e, post);
    ReadFromSuffix(script, |pre|);
    assert script[|pre|..] == Written(e) + post;
  }

  /** The element reader recovers whatever elements were written. */
  lemma {:induction false} ReadsAll(pre: seq<byte>, elements: seq<Element>)
    requires forall i :: 0 <= i < |elements| ==> Writable(elements[i])
    ensures ElementsFrom(pre + WrittenAll(elements), |pre|) == Some(elements)
    decreases elements
  {
    hide Written, ReadElement, Writable;
    var script := pre + WrittenAll(elements);
    if elements != [] {
      var head, rest := Written(elements[0]), WrittenAll(elements[1..]);
      ReadsNext(pre, elements[0], rest);
      assert script == pre + head + rest;
      ReadsAll(pre + head, elements[1..]);
      assert [elements[0]] + elements[1..] == elements;
    }
  }

  lemma IntIsWritable(value: uint64)
    ensures Writable(IntElement(value))
  {
    MinimalFits(value);
  }

  lemma DataIsWritable(data: seq<byte>)
    requires |data| < 0x1_0000_0000
    ensures Writable(DataElement(data))
  {
  }

  // ----- Reading integers -----

  datatype ScriptItem = Opcode | Integer(value: nat) | OversizedInteger

  function ClassifyElement(e: Element): ScriptItem {
    if e.IsPush() then (if |e.data| > 8 then OversizedInteger else Integer(LittleEndian(e.data)))
    else if OP_1 <= e.opcode <= OP_16 then Integer(e.opcode - OP_1 + 1)
    else Opcode
  }

  lemma {:induction false} BytesFit(bytes: seq<byte>, n: nat)
    requires |bytes| <= n
    ensures LittleEndian(bytes) < Pow256(n)
  {
    if bytes != [] {
      BytesFit(bytes[1..], n - 1);
    }
  }

  lemma ItemFits(e: Element)
    requires ClassifyElement(e).Integer?
    ensures ClassifyElement(e).value <= MAX_UINT64
  {
    PowerEight();
    if e.IsPush() { BytesFit(e.data, 8); }
  }

  /** The number an element pushes, a zero sign byte dropped. */
  function ElementInteger(e: Element): (r: Option<uint64>) {
    var stripped := if e.data != [] && e.data[|e.data| - 1] == 0 then e.(data := e.data[..|e.data| - 1]) else e;
    match ClassifyElement(stripped)
    case Integer(value) =>
      ItemFits(stripped);
      Some(value)
    case OversizedInteger => None
    case Opcode => None
  }

  /** Every unsigned 64-bit number reads back as itself. */
  lemma IntegerReadsBack(value: uint64)
    ensures ElementInteger(IntElement(value)) == Some(value)
  {
    hide Digits, LittleEndian, Pow256;
    NoBytes();
    var e := IntElement(value);
    if value > 16 {
      var digits := Digits(value);
      PowerEight();
      DigitsFit(value, 8);
      MinimalFits(value);
      if digits[|digits| - 1] >= 0x80 {
        assert e.data == digits + [0];
        assert e.data[..|e.data| - 1] == digits;
      } else {
        assert e.data == digits;
      }
    }
  }

  /** Read without dropping the sign byte, a number is too long exactly from
      `2^63` on. */
  lemma IntegerClassified(value: uint64)
    ensures ClassifyElement(IntElement(value)) ==
              if value < 0x8000_0000_0000_0000 then Integer(value) else OversizedInteger
  {
    hide Digits, LittleEndian, Pow256;
    NoBytes();
    if value > 16 {
      var digits := Digits(value);
      PowerEight();
      DigitsFit(value, 8);
      MinimalFits(value);
      AppendZero(digits);
      if |digits| == 8 {
        HighDigit(value, 8);
      } else {
        ShortDigits(value, 7);
      }
    }
  }

  lemma {:induction false} ShortDigits(value: nat, n: nat)
    requires |Digits(value)| <= n
    ensures value < Pow256(n)
  {
    if value > 0 { ShortDigits(value / 0x100, n - 1); }
  }

  /** The integer before the first `target`, read from `position` on. */
  function PrecedingInteger(script: seq<byte>, position: nat, previous: ScriptItem, target: byte): Result<Option<nat>, ()>
    requires position <= |script|
    decreases |script| - position
  {
    if position == |script| then Ok(None)
    else if script[position] == target then Preceding(previous)
    else
      match ReadElement(script, position)
      case None => Err(())
      case Some((element, next)) => PrecedingInteger(script, next, ClassifyElement(element), target)
  }

  function Preceding(previous: ScriptItem): Result<Option<nat>, ()> {
    match previous
    case Integer(value) => Ok(Some(value))
    case OversizedInteger => Err(())
    case Opcode => Ok(None)
  }

  /** Finds that integer with at most as many steps as the script has bytes. */
  method FindPrecedingScriptInteger(script: seq<byte>, target: byte) returns (r: Result<Option<nat>, ()>)
    ensures r == PrecedingInteger(script, 0, Opcode, target)
  {
    var position := 0;
    var previous := Opcode;
    for steps := 0 to |script|
      invariant steps <= position <= |script|
      invariant PrecedingInteger(script, position, previous, target) == PrecedingInteger(script, 0, Opcode, target)
    {
      if position >= |script| {
        return Ok(None);
      }
      if script[position] == target {
        match previous
        case Integer(value) => return Ok(Some(value));
        case OversizedInteger => return Err(());
        case Opcode => return Ok(None);
      }
      var item := ReadElement(script, position);
      if item.None? {
        return Err(());
      }
      previous, position := ClassifyElement(item.value.0), item.value.1;
    }
    r := Ok(None);
  }

  /** The same over elements. */
  function PrecedingAmong(elements: seq<Element>, previous: ScriptItem, target: byte): Result<Option<nat>, ()> {
    if elements == [] then Ok(None)
    else if elements[0].opcode == target then Preceding(previous)
    else PrecedingAmong(elements[1..], ClassifyElement(elements[0]), target)
  }

  lemma {:induction false} PrecedingIsAmong(pre: seq<byte>, elements: seq<Element>, previous: ScriptItem, target: byte)
    requires forall i :: 0 <= i < |elements| ==> Writable(elements[i])
    ensures PrecedingInteger(pre + WrittenAll(elements), |pre|, previous, target) == PrecedingAmong(elements, previous, target)
    decreases elements
  {
    hide Written, ReadElement, Writable, ClassifyElement;
    var script := pre + WrittenAll(elements);
    if elements != [] {
      var head, rest := Written(elements[0]), WrittenAll(elements[1..]);
      ReadsNext(pre, elements[0], rest);
      assert script == pre + head + rest;
      assert script[|pre|] == head[0];
      if elements[0].opcode != target {
        PrecedingIsAmong(pre + head, elements[1..], ClassifyElement(elements[0]), target);
      }
    }
  }

  // ----- Writing -----

  lemma OpWritten(opcode: byte)
    requires opcode !in {OP_PUSHDATA1, OP_PUSHDATA2, OP_PUSHDATA4}
    ensures Written(OpElement(opcode)) == [opcode]
  {
  }

  lemma OneByte(length: byte)
    ensures LeBytes(length, 1) == [length]
  {
    assert LeBytes(length, 1) == [length % 0x100] + LeBytes(length / 0x100, 0);
  }

  /** `to_le_bytes` without its leading zeros. */
  method TrimmedBytes(value: uint64) returns (number: seq<byte>)
    ensures number == Digits(value)
  {
    number := LeBytes(value, 8);
    PowerEight();
    LeBytesValue(value, 8);
    while number != [] && number[|number| - 1] == 0
      invariant LittleEndian(number) == value
      decreases |number|
    {
      AppendZero(number[..|number| - 1]);
      assert number == number[..|number| - 1] + [0];
      number := number[..|number| - 1];
    }
    DigitsAreUnique(number);
  }

  /** The growing script of the builders, and the elements it consists of. */
  class ScriptBuffer {
    var bytes: seq<byte>
    ghost var elements: seq<Element>

    ghost predicate Valid()
      reads this
    {
      && bytes == WrittenAll(elements)
      && forall i :: 0 <= i < |elements| ==> Writable(elements[i])
    }

    constructor ()
      ensures Valid() && elements == []
    {
      bytes := [];
      elements := [];
    }

    /** Appends the bytes of one element. */
    method Extend(data: seq<byte>, ghost e: Element)
      requires Valid() && Writable(e) && data == Written(e)
      modifies this
      ensures Valid() && elements == old(elements) + [e]
    {
      hide Written, Writable;
      WrittenAppend(elements, [e]);
      WrittenOne(e);
      bytes := bytes + data;
      elements := elements + [e];
    }

    method Push(opcode: byte)
      requires Valid() && (opcode == 0 || opcode > OP_PUSHDATA4)
      modifies this
      ensures Valid() && elements == old(elements) + [OpElement(opcode)]
    {
      OpWritten(opcode);
      Extend([opcode], OpElement(opcode));
    }

    /** Appends the shortest encoding of `value` as a script number. */
    method PushInt(value: uint64)
      requires Valid()
      modifies this
      ensures Valid() && elements == old(elements) + [IntElement(value)]
    {
      if value == 0 {
        Push(OP_0);
        return;
      }
      if value <= 16 {
        Push(0x50 + value);
        return;
      }
      var number := TrimmedBytes(value);
      if number != [] && number[|number| - 1] >= 0x80 {
        number := number + [0];
      }
      MinimalFits(value);
      assert Written(IntElement(value)) == [|number|] + number;
      IntIsWritable(value);
      Extend([|number|] + number, IntElement(value));
    }

    /** Appends a push of `data` with the shortest length field. */
    method PushData(data: seq<byte>)
      requires Valid() && |data| < 0x1_0000_0000
      modifies this
      ensures Valid() && elements == old(elements) + [DataElement(data)]
    {
      var header: seq<byte>;
      if |data| <= 75 {
        header := [|data|];
      } else if |data| < 0x100 {
        OneByte(|data|);
        header := [0x4c, |data|];
        assert header == [0x4c] + LeBytes(|data|, 1);
      } else if |data| < 0x1_0000 {
        header := [0x4d] + LeBytes(|data|, 2);
      } else {
        header := [0x4e] + LeBytes(|data|, 4);
      }
      assert header + data == Written(DataElement(data));
      Extend(header + data, DataElement(data));
    }

    method PushPubkey(key: seq<byte>)
      requires Valid() && |key| == 32
      modifies this
      ensures Valid() && elements == old(elements) + [DataElement(key)]
    {
      Extend([0x20] + key, DataElement(key));
    }
  }

  /** Reading a finished buffer gives back its elements. */
  lemma BufferReadsBack(elements: seq<Element>)
    requires forall i :: 0 <= i < |elements| ==> Writable(elements[i])
    ensures ElementsFrom(WrittenAll(elements), 0) == Some(elements)
  {
    ReadsAll([], elements);
    assert [] + WrittenAll(elements) == WrittenAll(elements);
  }
}
