/** The one reader of script elements (src/primitives/script.rs). */
module ScriptElements {
  import opened Common

  const OP_PUSHDATA1: byte := 0x4c
  const OP_PUSHDATA2: byte := 0x4d
  const OP_PUSHDATA4: byte := 0x4e

  /** One script element; only pushes carry data. */
  datatype Element = Element(opcode: byte, data: seq<byte>) {
    predicate IsPush() { opcode <= OP_PUSHDATA4 }
  }

  /** The little-endian value of `bytes`. */
  function LittleEndian(bytes: seq<byte>): nat {
    if bytes == [] then 0 else bytes[0] + 0x100 * LittleEndian(bytes[1..])
  }

  /** The value of the `n` bytes at `at`, when the script holds them. */
  function Little(script: seq<byte>, at: nat, n: nat): Option<nat> {
    if at + n <= |script| then Some(LittleEndian(script[at..at + n])) else None
  }

  /** Bytes before the data of the element at `at`, and how many it pushes. */
  function Header(script: seq<byte>, at: nat): Option<(nat, nat)>
    requires at < |script|
  {
    var opcode := script[at];
    if 0x01 <= opcode <= 0x4b then Some((1, opcode))
    else if opcode == OP_PUSHDATA1 then var length :- Little(script, at + 1, 1); Some((2, length))
    else if opcode == OP_PUSHDATA2 then var length :- Little(script, at + 1, 2); Some((3, length))
    else if opcode == OP_PUSHDATA4 then var length :- Little(script, at + 1, 4); Some((5, length))
    else Some((1, 0))
  }

  /** Reads one element and says where the next begins; none past the end of the
      script, and none for a push that the script cuts off. */
  function ReadElement(script: seq<byte>, at: nat): (r: Option<(Element, nat)>)
    ensures r.Some? ==> at < r.value.1 <= |script| && r.value.0.opcode == script[at]
  {
    if at >= |script| then None
    else
      var (header, length) :- Header(script, at);
      var start := at + header;
      if start + length <= |script|
      then Some((Element(script[at], script[start..start + length]), start + length))
      else None
  }

  lemma SliceOfSuffix<T>(s: seq<T>, at: nat, from: nat, n: nat)
    requires at + from + n <= |s|
    ensures s[at..][from..from + n] == s[at + from..at + from + n]
  {
  }

  lemma LittleFromSuffix(script: seq<byte>, at: nat, n: nat)
    requires at <= |script|
    ensures Little(script[at..], 1, n) == Little(script, at + 1, n)
  {
    if at + 1 + n <= |script| {
      assert script[at..][1..1 + n] == script[at + 1..at + 1 + n];
    }
  }

  /** Reading depends only on the bytes from `at` on: a suffix walker and an
      offset walker read the same element. */
  lemma ReadFromSuffix(script: seq<byte>, at: nat)
    requires at <= |script|
    ensures ReadElement(script[at..], 0) == match ReadElement(script, at)
                                            case None => None
                                            case Some((element, next)) => Some((element, next - at))
  {
    var rest := script[at..];
    if at < |script| {
      LittleFromSuffix(script, at, 1);
      LittleFromSuffix(script, at, 2);
      LittleFromSuffix(script, at, 4);
      assert Header(rest, 0) == Header(script, at);
      var header := Header(rest, 0);
      if header.Some? {
        var (h, n) := header.value;
        if h + n <= |rest| { SliceOfSuffix(script, at, h, n); }
      }
    }
  }

  /** Every element from `at` on, when all of them are well formed. */
  function ElementsFrom(script: seq<byte>, at: nat): Option<seq<Element>>
    requires at <= |script|
    decreases |script| - at
  {
    if at == |script| then Some([])
    else
      var (element, next) :- ReadElement(script, at);
      var rest :- ElementsFrom(script, next);
      Some([element] + rest)
  }

  /** Walks over a script one element at a time, until one does not read. */
  class Elements {
    const script: seq<byte>
    var at: nat
    var malformed: bool

    constructor (script: seq<byte>)
      ensures this.script == script && at == 0 && !malformed
    {
      this.script := script;
      at := 0;
      malformed := false;
    }

    ghost predicate Valid()
      reads this
    {
      at <= |script|
    }

    /** Nothing is left to read, and everything read well. */
    predicate IsComplete()
      reads this
    {
      !malformed && at == |script|
    }

    method Next() returns (r: Option<Element>)
      requires Valid()
      modifies this
      ensures Valid()
      ensures old(malformed) || old(at) == |script| ==> r.None? && at == old(at) && malformed == old(malformed)
      ensures !old(malformed) && old(at) < |script| ==>
                match ReadElement(script, old(at))
                case None => r.None? && malformed && at == old(at)
                case Some((element, next)) => r == Some(element) && at == next && !malformed
    {
      if malformed || at == |script| { return None; }
      var read := ReadElement(script, at);
      match read
      case None =>
        malformed := true;
        return None;
      case Some((element, next)) =>
        at := next;
        return Some(element);
    }
  }

  /** Drains the iterator, then asks it whether it consumed the whole script. */
  method CompleteElements(script: seq<byte>) returns (r: Option<seq<Element>>)
    ensures r == ElementsFrom(script, 0)
  {
    var walker := new Elements(script);
    var collected: seq<Element> := [];
    var more := true;
    if ElementsFrom(script, 0).Some? {
      assert collected + ElementsFrom(script, 0).value == ElementsFrom(script, 0).value;
    }
    while more
      invariant walker.Valid() && walker.script == script
      invariant !walker.malformed ==>
                  ElementsFrom(script, 0) == match ElementsFrom(script, walker.at)
                                             case None => None
                                             case Some(rest) => Some(collected + rest)
      invariant walker.malformed ==> ElementsFrom(script, 0).None?
      invariant !more ==> walker.malformed || walker.at == |script|
      decreases |script| - walker.at, more
    {
      var element := walker.Next();
      match element
      case None => more := false;
      case Some(e) =>
        ghost var tail := ElementsFrom(script, walker.at);
        if tail.Some? {
          assert collected + ([e] + tail.value) == (collected + [e]) + tail.value;
        }
        collected := collected + [e];
    }
    if walker.IsComplete() {
      assert collected + [] == collected;
      r := Some(collected);
    } else {
      r := None;
    }
  }
}
