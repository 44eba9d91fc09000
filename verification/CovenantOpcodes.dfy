/** What the opcodes of a covenant do to the items of a stack, told opcode by
    opcode, and that the effects the tracer counts with are exactly those. */
module CovenantOpcodes {
  import opened Common
  import opened CovenantScript
  import opened CovenantTrace

  const NOP: byte := 0x61
  const VERIFY: byte := 0x69
  const DROP2: byte := 0x6d
  const DUP2: byte := 0x6e
  const DROP: byte := 0x75
  const DUP: byte := 0x76
  const NIP: byte := 0x77
  const OVER: byte := 0x78
  const PICK: byte := 0x79
  const ROLL: byte := 0x7a
  const ROT: byte := 0x7b
  const SWAP: byte := 0x7c
  const TUCK: byte := 0x7d
  const CAT: byte := 0x7e
  const SUBSTR: byte := 0x7f
  const SIZE: byte := 0x82
  const EQUAL: byte := 0x87
  const EQUALVERIFY: byte := 0x88
  const NUMEQUALVERIFY: byte := 0x9d
  const WITHIN: byte := 0xa5
  const SHA256: byte := 0xa8
  const BLAKE2B: byte := 0xaa
  const CHECKLOCKTIMEVERIFY: byte := 0xb0
  const CHECKSEQUENCEVERIFY: byte := 0xb1
  const TX_INPUT_COUNT: byte := 0xb3
  const TX_OUTPUT_COUNT: byte := 0xb4
  const TX_INPUT_INDEX: byte := 0xb9
  const TX_INPUT_SCRIPT_SIG_SUBSTR: byte := 0xbc
  const COV_OUTPUT_IDX: byte := 0xd3

  /** `1ADD`, `1SUB`, `NEGATE`, `ABS`, `NOT` and `0NOTEQUAL`. */
  const ONE_NUMBER: set<byte> := {0x8b, 0x8c, 0x8f, 0x90, 0x91, 0x92}

  /** `ADD`, `SUB`, the logical ones, the comparisons, `MIN` and `MAX`. */
  const TWO_NUMBERS: set<byte> := {0x93, 0x94, 0x9a, 0x9b, 0x9c, 0x9e, 0x9f, 0xa0, 0xa1, 0xa2, 0xa3, 0xa4}

  /** Looks up one property of an input, an output or the covenant by its index. */
  const LOOKUPS: set<byte> := {0xbe, 0xbf, 0xc2, 0xc3, 0xc9, 0xcb, 0xcf, 0xd0, 0xd2, 0xd5}

  datatype Item =
    | Pushed(at: nat)           // pushed by the data element at this offset
    | Made                      // any other item the script produced
    | Witness(item: WitnessItem)

  /** The script itself put the top `n` items there. */
  predicate Own(stack: seq<Item>, n: nat) {
    n <= |stack| && forall i :: 0 <= i < n ==> !stack[i].Witness?
  }

  /** Uses up `n` items. */
  function Check(stack: seq<Item>, n: nat): Option<seq<Item>> {
    if Own(stack, n) then Some(stack[n..]) else None
  }

  /** Uses up `n` items and leaves the result. */
  function Compute(stack: seq<Item>, n: nat): Option<seq<Item>> {
    if Own(stack, n) then Some([Made] + stack[n..]) else None
  }

  /** Opcodes that move and copy items; `number` is what the top item says, to
      those that ask. */
  function Rearrange(opcode: byte, number: nat, stack: seq<Item>): Option<seq<Item>> {
    if opcode == DROP && Own(stack, 1) then Some(stack[1..])
    else if opcode == DROP2 && Own(stack, 2) then Some(stack[2..])
    else if opcode == DUP && Own(stack, 1) then Some([stack[0]] + stack)
    else if opcode == DUP2 && Own(stack, 2) then Some([stack[0], stack[1]] + stack)
    else if opcode == NIP && Own(stack, 2) then Some([stack[0]] + stack[2..])
    else if opcode == OVER && Own(stack, 2) then Some([stack[1]] + stack)
    else if opcode == TUCK && Own(stack, 2) then Some([stack[0], stack[1], stack[0]] + stack[2..])
    else if opcode == ROT && Own(stack, 3) then Some([stack[2], stack[0], stack[1]] + stack[3..])
    else if opcode == SWAP && Own(stack, 2) then Some([stack[1], stack[0]] + stack[2..])
    else if opcode == SIZE && Own(stack, 1) then Some([Made] + stack)
    else if opcode == PICK && Own(stack, number + 2) then Some([stack[number + 1]] + stack[1..])
    else if opcode == ROLL && Own(stack, number + 2)
      then Some([stack[number + 1]] + stack[1..number + 1] + stack[number + 2..])
    else None
  }

  predicate Rearranges(opcode: byte) {
    opcode in {DROP, DROP2, DUP, DUP2, NIP, OVER, TUCK, ROT, SWAP, SIZE, PICK, ROLL}
  }

  /** One opcode that is neither a push nor a branch nor a signature check. One
      that the machine does not know fails, and so does one that would reach an
      item of the witness. */
  function Operate(opcode: byte, number: nat, stack: seq<Item>): Option<seq<Item>> {
    if Rearranges(opcode) then Rearrange(opcode, number, stack)
    else if opcode == NOP then Some(stack)
    else if opcode in {VERIFY, CHECKLOCKTIMEVERIFY, CHECKSEQUENCEVERIFY} then Check(stack, 1)
    else if opcode in {EQUALVERIFY, NUMEQUALVERIFY} then Check(stack, 2)
    else if opcode in {TX_INPUT_COUNT, TX_OUTPUT_COUNT, TX_INPUT_INDEX} then Compute(stack, 0)
    else if opcode in ONE_NUMBER || opcode in LOOKUPS || opcode in {SHA256, BLAKE2B} then Compute(stack, 1)
    else if opcode in TWO_NUMBERS || opcode in {CAT, EQUAL, COV_OUTPUT_IDX} then Compute(stack, 2)
    else if opcode in {SUBSTR, WITHIN, TX_INPUT_SCRIPT_SIG_SUBSTR} then Compute(stack, 3)
    else None
  }

  // ----- Effects -----

  /** From this stack the opcode works exactly when it holds `takes` items of the
      script, and then it leaves `leaves` items in their place, each of them new
      or one of those. */
  predicate HasEffect(opcode: byte, takes: nat, leaves: nat, number: nat, stack: seq<Item>) {
    var r := Operate(opcode, number, stack);
    && (r.Some? <==> Own(stack, takes))
    && (r.Some? ==>
          && |r.value| == |stack| - takes + leaves && r.value[leaves..] == stack[takes..]
          && forall i :: 0 <= i < leaves ==> r.value[i] == Made || r.value[i] in stack[..takes])
  }

  /** The same items and the same number of them, whatever the stack holds. */
  ghost predicate FixedEffect(opcode: byte, takes: nat, leaves: nat) {
    forall number: nat, stack: seq<Item> :: HasEffect(opcode, takes, leaves, number, stack)
  }

  lemma RearrangedEffect(opcode: byte, number: nat, stack: seq<Item>)
    requires Rearranges(opcode) && opcode != PICK && opcode != ROLL
    ensures StackEffect(opcode).Some?
    ensures HasEffect(opcode, StackEffect(opcode).value.0, StackEffect(opcode).value.1, number, stack)
  {
    assert forall i, n :: 0 <= i < n <= |stack| ==> stack[i] in stack[..n] by {
      forall i, n | 0 <= i < n <= |stack| ensures stack[i] in stack[..n] { assert stack[..n][i] == stack[i]; }
    }
  }

  lemma OperatedEffect(opcode: byte, number: nat, stack: seq<Item>)
    requires !Rearranges(opcode)
    ensures match StackEffect(opcode)
            case Some((takes, leaves)) => HasEffect(opcode, takes, leaves, number, stack)
            case None => Operate(opcode, number, stack).None?
  {
  }

  /** The tracer's effect of an opcode is what the opcode does to any stack. */
  lemma EffectHolds(opcode: byte, number: nat, stack: seq<Item>)
    requires StackEffect(opcode).Some?
    ensures HasEffect(opcode, StackEffect(opcode).value.0, StackEffect(opcode).value.1, number, stack)
  {
    hide HasEffect;
    if Rearranges(opcode) {
      RearrangedEffect(opcode, number, stack);
    } else {
      OperatedEffect(opcode, number, stack);
    }
  }

  function Mades(n: nat): (items: seq<Item>)
    ensures |items| == n && forall i :: 0 <= i < n ==> items[i] == Made
  {
    seq(n, _ => Made)
  }

  /** An opcode has at most one fixed effect. */
  lemma EffectIsUnique(opcode: byte, takes: nat, leaves: nat, takes': nat, leaves': nat)
    requires FixedEffect(opcode, takes, leaves) && FixedEffect(opcode, takes', leaves')
    ensures takes == takes' && leaves == leaves'
  {
    hide Operate;
    assert HasEffect(opcode, takes, leaves, 0, Mades(takes)) && HasEffect(opcode, takes', leaves', 0, Mades(takes));
    assert HasEffect(opcode, takes, leaves, 0, Mades(takes')) && HasEffect(opcode, takes', leaves', 0, Mades(takes'));
  }

  /** Picking reaches as deep as the number says. */
  lemma NumberDecides(opcode: byte, takes: nat, leaves: nat)
    requires opcode == PICK || opcode == ROLL
    ensures !FixedEffect(opcode, takes, leaves)
  {
    assert Own(Mades(takes), takes) && !Own(Mades(takes), takes + 2);
    assert !HasEffect(opcode, takes, leaves, takes, Mades(takes));
  }

  /** The tracer knows an effect exactly when the opcode has a fixed one, and then
      it is that one. */
  lemma StackEffectIsExact(opcode: byte, takes: nat, leaves: nat)
    ensures StackEffect(opcode) == Some((takes, leaves)) <==> FixedEffect(opcode, takes, leaves)
  {
    hide HasEffect;
    var effect := StackEffect(opcode);
    if effect.Some? {
      forall number: nat, stack: seq<Item> ensures HasEffect(opcode, effect.value.0, effect.value.1, number, stack) {
        EffectHolds(opcode, number, stack);
      }
      if FixedEffect(opcode, takes, leaves) {
        EffectIsUnique(opcode, takes, leaves, effect.value.0, effect.value.1);
      }
    } else if opcode == PICK || opcode == ROLL {
      NumberDecides(opcode, takes, leaves);
    } else {
      UnknownHasNone(opcode, takes, leaves);
    }
  }

  lemma UnknownHasNone(opcode: byte, takes: nat, leaves: nat)
    requires StackEffect(opcode).None? && opcode != PICK && opcode != ROLL
    ensures !FixedEffect(opcode, takes, leaves)
  {
    assert !Rearranges(opcode);
    OperatedEffect(opcode, 0, Mades(takes));
    assert !HasEffect(opcode, takes, leaves, 0, Mades(takes));
  }

  // ----- Where an item came from does not matter -----

  /** The stack without the memory of which element pushed an item. */
  function Erase(stack: seq<Item>): (erased: seq<Item>)
    ensures |erased| == |stack|
    ensures forall i :: 0 <= i < |stack| ==> erased[i] == if stack[i].Pushed? then Made else stack[i]
  {
    seq(|stack|, i requires 0 <= i < |stack| => if stack[i].Pushed? then Made else stack[i])
  }

  lemma RearrangedErased(opcode: byte, number: nat, stack: seq<Item>)
    ensures match Rearrange(opcode, number, stack)
            case None => Rearrange(opcode, number, Erase(stack)).None?
            case Some(rest) => Rearrange(opcode, number, Erase(stack)) == Some(Erase(rest))
  {
    hide Erase;
    assert forall n: nat :: Own(Erase(stack), n) == Own(stack, n) by {
      forall n: nat ensures Own(Erase(stack), n) == Own(stack, n) { OwnErased(stack, n); }
    }
    var r := Rearrange(opcode, number, stack);
    if r.Some? { assert Rearrange(opcode, number, Erase(stack)).value == Erase(r.value); }
  }

  lemma OwnErased(stack: seq<Item>, n: nat)
    ensures Own(Erase(stack), n) == Own(stack, n)
    ensures n <= |stack| ==> Erase(stack)[n..] == Erase(stack[n..]) && [Made] + Erase(stack[n..]) == Erase([Made] + stack[n..])
  {
    assert forall i :: 0 <= i < |stack| ==> Erase(stack)[i].Witness? == stack[i].Witness?;
  }

  lemma OperatedErased(opcode: byte, number: nat, stack: seq<Item>)
    ensures match Operate(opcode, number, stack)
            case None => Operate(opcode, number, Erase(stack)).None?
            case Some(rest) => Operate(opcode, number, Erase(stack)) == Some(Erase(rest))
  {
    hide Erase, Own, Rearrange;
    RearrangedErased(opcode, number, stack);
    OwnErased(stack, 0);
    OwnErased(stack, 1);
    OwnErased(stack, 2);
    OwnErased(stack, 3);
    OwnFits(stack);
  }

  lemma OwnFits(stack: seq<Item>)
    ensures forall n: nat :: Own(stack, n) ==> n <= |stack|
  {
  }

  /** Whatever an opcode leaves is new or was there before. */
  lemma OperatedItems(opcode: byte, number: nat, stack: seq<Item>)
    ensures var r := Operate(opcode, number, stack);
            r.Some? ==> forall i :: 0 <= i < |r.value| ==> r.value[i] == Made || r.value[i] in stack
  {
  }
}
