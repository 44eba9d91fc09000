/** A stack machine for the contracts' scripts: the opcodes their builders write,
    run element by element against a transaction that spends the contract. Every
    other opcode fails. */
module ScriptMachine {
  import opened Common
  import opened ContractOpcodes
  import opened ScriptElements
  import opened ScriptNumber
  import opened MerkleTree

  datatype Coin = Coin(spk: Bytes, amount: uint64)

  /** The transaction as a script sees it, and the engine's own judgements: the
      hash function, which signatures are good for which keys, and which locktimes
      the transaction has reached. */
  datatype Spending = Spending(
    spent: Coin, index: nat, outputs: seq<Coin>,
    hash: HashFunction, signed: (Bytes, Bytes) -> bool, reached: nat -> bool)

  /** The stack, its top last, and the open conditions, the innermost last. */
  datatype Machine = Machine(stack: seq<Bytes>, conds: seq<bool>)

  const TRUE: Bytes := [1]
  const FALSE: Bytes := []

  /** What lies below the top, and the top. */
  function Top(stack: seq<Bytes>): Option<(seq<Bytes>, Bytes)> {
    if stack == [] then None else Some((stack[..|stack| - 1], stack[|stack| - 1]))
  }

  predicate Executing(conds: seq<bool>) {
    forall i :: 0 <= i < |conds| ==> conds[i]
  }

  /** What an element pushes, when it pushes. */
  function Pushed(e: Element): Option<Bytes> {
    if e.IsPush() then Some(e.data) else if OP_1 <= e.opcode <= OP_16 then Some([e.opcode - OP_1 + 1]) else None
  }

  /** Opcodes that look something up by the top item, or replace it. */
  function Replaced(tx: Spending, opcode: byte, x: Bytes): Option<Bytes> {
    var at := LittleEndian(x);
    if opcode == OP_BLAKE2B then Some(tx.hash(x))
    else if opcode == OP_TX_OUTPUT_SPK && at < |tx.outputs| then Some(tx.outputs[at].spk)
    else if opcode == OP_TX_OUTPUT_AMOUNT && at < |tx.outputs| then Some(Minimal(tx.outputs[at].amount))
    else if opcode == OP_TX_INPUT_SPK && at == tx.index then Some(tx.spent.spk)
    else if opcode == OP_TX_INPUT_AMOUNT && at == tx.index then Some(Minimal(tx.spent.amount))
    else None
  }

  /** Opcodes on the two top items, `x` above `y`. */
  function Joined(tx: Spending, opcode: byte, y: Bytes, x: Bytes): Option<seq<Bytes>> {
    if opcode == OP_SWAP then Some([x, y])
    else if opcode == OP_CAT then Some([y + x])
    else if opcode == OP_EQUAL then Some([if x == y then TRUE else FALSE])
    else if opcode == OP_EQUALVERIFY && x == y then Some([])
    else if opcode == OP_CHECKSIG then Some([if tx.signed(y, x) then TRUE else FALSE])
    else if opcode == OP_CHECKSIGVERIFY && tx.signed(y, x) then Some([])
    else None
  }

  /** One element on the stack; `IF`, `ELSE` and `ENDIF` are not among them. */
  function Operate(tx: Spending, e: Element, stack: seq<Bytes>): Option<seq<Bytes>> {
    if Pushed(e).Some? then Some(stack + [Pushed(e).value])
    else if e.opcode == OP_TX_INPUT_INDEX then Some(stack + [Minimal(tx.index)])
    else if e.opcode == OP_TX_OUTPUT_COUNT then Some(stack + [Minimal(|tx.outputs|)])
    else
      var (below, x) :- Top(stack);
      if e.opcode == OP_DROP then Some(below)
      else if e.opcode == OP_DUP then Some(stack + [x])
      else if e.opcode == OP_CHECKLOCKTIMEVERIFY then (if tx.reached(LittleEndian(x)) then Some(below) else None)
      else if Replaced(tx, e.opcode, x).Some? then Some(below + [Replaced(tx, e.opcode, x).value])
      else
        var (base, y) :- Top(below);
        var items :- Joined(tx, e.opcode, y, x);
        Some(base + items)
  }

  predicate IsBranching(opcode: byte) {
    opcode in {OP_IF, OP_ELSE, OP_ENDIF}
  }

  /** A condition on top of the stack, `TRUE` or `FALSE` exactly. */
  function Condition(stack: seq<Bytes>): Option<(seq<Bytes>, bool)> {
    var (below, x) :- Top(stack);
    if x == TRUE then Some((below, true)) else if x == FALSE then Some((below, false)) else None
  }

  /** One element on the machine. */
  function Step(tx: Spending, e: Element, m: Machine): Option<Machine> {
    if e.opcode == OP_IF then
      if !Executing(m.conds) then Some(m.(conds := m.conds + [false]))
      else
        match Condition(m.stack)
        case None => None
        case Some((below, value)) => Some(Machine(below, m.conds + [value]))
    else if e.opcode == OP_ELSE then
      if m.conds == [] then None
      else
        var n := |m.conds| - 1;
        Some(m.(conds := m.conds[..n] + [!m.conds[n]]))
    else if e.opcode == OP_ENDIF then
      if m.conds == [] then None else Some(m.(conds := m.conds[..|m.conds| - 1]))
    else if !Executing(m.conds) then Some(m)
    else
      var stack :- Operate(tx, e, m.stack);
      Some(m.(stack := stack))
  }

  function Execute(tx: Spending, code: seq<Element>, m: Machine): Option<Machine>
    decreases code
  {
    if code == [] then Some(m)
    else
      var next :- Step(tx, code[0], m);
      Execute(tx, code[1..], next)
  }

  /** The script accepts the items offered: it runs to its end, all conditions
      closed, and leaves `TRUE` on top. */
  predicate Accepts(tx: Spending, script: seq<byte>, offered: seq<Bytes>) {
    var elements := ElementsFrom(script, 0);
    && elements.Some?
    && var end := Execute(tx, elements.value, Machine(offered, []));
       && end.Some? && end.value.conds == []
       && end.value.stack != [] && end.value.stack[|end.value.stack| - 1] == TRUE
  }

  lemma {:induction false} ExecuteAppend(tx: Spending, a: seq<Element>, b: seq<Element>, m: Machine)
    ensures Execute(tx, a + b, m) == match Execute(tx, a, m) case None => None case Some(next) => Execute(tx, b, next)
    decreases a
  {
    hide Step;
    if a == [] {
      assert a + b == b;
    } else {
      assert (a + b)[0] == a[0] && (a + b)[1..] == a[1..] + b;
      var next := Step(tx, a[0], m);
      if next.Some? { ExecuteAppend(tx, a[1..], b, next.value); }
    }
  }

  // ----- Branches as trees -----

  datatype Code = Do(e: Element) | Branch(taken: seq<Code>, other: seq<Code>)

  /** The elements of a tree; an arm that is empty has no `ELSE`. */
  function Flat(code: seq<Code>): seq<Element>
    decreases code
  {
    if code == [] then []
    else
      (match code[0]
       case Do(e) => [e]
       case Branch(taken, other) =>
         [OpElement(OP_IF)] + Flat(taken) + (if other == [] then [] else [OpElement(OP_ELSE)] + Flat(other)) + [OpElement(OP_ENDIF)])
      + Flat(code[1..])
  }

  /** Only branches of the tree branch. */
  predicate Structured(code: seq<Code>)
    decreases code
  {
    code != [] ==>
      && (match code[0]
          case Do(e) => !IsBranching(e.opcode)
          case Branch(taken, other) => Structured(taken) && Structured(other))
      && Structured(code[1..])
  }

  function RunOne(tx: Spending, c: Code, stack: seq<Bytes>): Option<seq<Bytes>>
    decreases c
  {
    match c
    case Do(e) => Operate(tx, e, stack)
    case Branch(taken, other) =>
      match Condition(stack)
      case None => None
      case Some((below, value)) => if value then Run(tx, taken, below) else Run(tx, other, below)
  }

  /** Runs a tree on the stack alone. */
  function Run(tx: Spending, code: seq<Code>, stack: seq<Bytes>): Option<seq<Bytes>>
    decreases code
  {
    if code == [] then Some(stack)
    else
      match RunOne(tx, code[0], stack)
      case None => None
      case Some(next) => Run(tx, code[1..], next)
  }

  function On(stack: Option<seq<Bytes>>, conds: seq<bool>): Option<Machine> {
    match stack case None => None case Some(s) => Some(Machine(s, conds))
  }

  /** What running elements does: as the tree does where they are executed, and
      nothing where they are skipped. */
  predicate RunsAs(tx: Spending, code: seq<Element>, m: Machine, result: Option<seq<Bytes>>) {
    Execute(tx, code, m) == if Executing(m.conds) then On(result, m.conds) else Some(m)
  }

  ghost predicate TreeHolds(tx: Spending, code: seq<Code>) {
    forall m: Machine :: RunsAs(tx, Flat(code), m, Run(tx, code, m.stack))
  }

  lemma OneElement(tx: Spending, e: Element, m: Machine)
    ensures Execute(tx, [e], m) == Step(tx, e, m)
  {
    hide Step;
    var next := Step(tx, e, m);
    assert [e][1..] == [];
    if next.Some? { assert Execute(tx, [], next.value) == next; }
  }

  /** Closing a branch, from either arm. */
  lemma Closing(tx: Spending, stack: seq<Bytes>, conds: seq<bool>, c: bool)
    ensures Execute(tx, [OpElement(OP_ENDIF)], Machine(stack, conds + [c])) == Some(Machine(stack, conds))
    ensures Execute(tx, [OpElement(OP_ELSE)], Machine(stack, conds + [c])) == Some(Machine(stack, conds + [!c]))
  {
    OneElement(tx, OpElement(OP_ENDIF), Machine(stack, conds + [c]));
    OneElement(tx, OpElement(OP_ELSE), Machine(stack, conds + [c]));
    assert (conds + [c])[..|conds|] == conds;
  }

  lemma Nested(conds: seq<bool>, c: bool)
    ensures Executing(conds + [c]) <==> Executing(conds) && c
  {
    assert (conds + [c])[|conds|] == c;
    assert forall i :: 0 <= i < |conds| ==> (conds + [c])[i] == conds[i];
  }

  /** Once a branch is entered with its condition decided, its arms and its end. */
  lemma {:induction false} ArmsRun(tx: Spending, taken: seq<Code>, other: seq<Code>, stack: seq<Bytes>, conds: seq<bool>, c: bool)
    requires TreeHolds(tx, taken) && TreeHolds(tx, other)
    ensures var rest := Flat(taken) + (if other == [] then [] else [OpElement(OP_ELSE)] + Flat(other)) + [OpElement(OP_ENDIF)];
            Execute(tx, rest, Machine(stack, conds + [c]))
            == if Executing(conds) then On(Run(tx, if c then taken else other, stack), conds) else Some(Machine(stack, conds))
  {
    hide Execute, Flat, Run;
    var a, b, close := Flat(taken), [OpElement(OP_ELSE)] + Flat(other), [OpElement(OP_ENDIF)];
    var m := Machine(stack, conds + [c]);
    Nested(conds, c);
    Nested(conds, !c);
    assert RunsAs(tx, a, m, Run(tx, taken, stack));
    var mid := Execute(tx, a, m);
    if other == [] {
      assert a + [] + close == a + close;
      ExecuteAppend(tx, a, close, m);
      RunNothing(tx, stack);
    } else {
      assert a + b + close == a + ([OpElement(OP_ELSE)] + (Flat(other) + close));
      ExecuteAppend(tx, a, [OpElement(OP_ELSE)] + (Flat(other) + close), m);
      if mid.Some? {
        ExecuteAppend(tx, [OpElement(OP_ELSE)], Flat(other) + close, mid.value);
        Closing(tx, mid.value.stack, conds, c);
        var turned := Machine(mid.value.stack, conds + [!c]);
        ExecuteAppend(tx, Flat(other), close, turned);
        assert RunsAs(tx, Flat(other), turned, Run(tx, other, turned.stack));
        var last := Execute(tx, Flat(other), turned);
        if last.Some? { Closing(tx, last.value.stack, conds, !c); }
      }
    }
    if mid.Some? { Closing(tx, mid.value.stack, conds, c); }
  }

  lemma RunNothing(tx: Spending, stack: seq<Bytes>)
    ensures Run(tx, [], stack) == Some(stack)
  {
  }

  lemma BranchFlat(taken: seq<Code>, other: seq<Code>)
    ensures Flat([Branch(taken, other)])
         == [OpElement(OP_IF)]
            + (Flat(taken) + (if other == [] then [] else [OpElement(OP_ELSE)] + Flat(other)) + [OpElement(OP_ENDIF)])
  {
    assert [Branch(taken, other)][1..] == [];
    assert Flat([]) == [];
  }

  lemma RunAlone(tx: Spending, c: Code, stack: seq<Bytes>)
    ensures Run(tx, [c], stack) == RunOne(tx, c, stack)
  {
    hide Operate;
    assert [c][1..] == [];
    RunNothing(tx, stack);
  }

  lemma BranchRuns(tx: Spending, taken: seq<Code>, other: seq<Code>, m: Machine)
    requires TreeHolds(tx, taken) && TreeHolds(tx, other)
    ensures RunsAs(tx, Flat([Branch(taken, other)]), m, RunOne(tx, Branch(taken, other), m.stack))
  {
    hide Flat, Run, Execute, Condition;
    var open := [OpElement(OP_IF)];
    var rest := Flat(taken) + (if other == [] then [] else [OpElement(OP_ELSE)] + Flat(other)) + [OpElement(OP_ENDIF)];
    BranchFlat(taken, other);
    ExecuteAppend(tx, open, rest, m);
    OneElement(tx, open[0], m);
    if Executing(m.conds) {
      var c := Condition(m.stack);
      if c.Some? { ArmsRun(tx, taken, other, c.value.0, m.conds, c.value.1); }
    } else {
      ArmsRun(tx, taken, other, m.stack, m.conds, false);
    }
  }

  lemma DoRuns(tx: Spending, e: Element, m: Machine)
    requires !IsBranching(e.opcode)
    ensures RunsAs(tx, Flat([Do(e)]), m, RunOne(tx, Do(e), m.stack))
  {
    hide Operate, Execute;
    assert [Do(e)][1..] == [];
    assert Flat([Do(e)]) == [e] + Flat([]) == [e];
    OneElement(tx, e, m);
  }

  lemma FlatFirst(code: seq<Code>)
    requires code != []
    ensures Flat(code) == Flat([code[0]]) + Flat(code[1..])
    ensures Structured(code) <==> Structured([code[0]]) && Structured(code[1..])
  {
    assert [code[0]][1..] == [];
    assert Flat([]) == [];
  }

  /** The elements of a tree do to the machine what the tree does to the stack. */
  lemma {:induction false} TreeRuns(tx: Spending, code: seq<Code>, m: Machine)
    requires Structured(code)
    ensures RunsAs(tx, Flat(code), m, Run(tx, code, m.stack))
    decreases code
  {
    hide Flat, Execute, Step, RunOne;
    if code == [] {
      NothingRuns(tx, m);
    } else {
      FlatFirst(code);
      var first := Flat([code[0]]);
      ExecuteAppend(tx, first, Flat(code[1..]), m);
      match code[0] {
        case Do(e) =>
          DoRuns(tx, e, m);
        case Branch(taken, other) =>
          forall m: Machine ensures RunsAs(tx, Flat(taken), m, Run(tx, taken, m.stack)) { TreeRuns(tx, taken, m); }
          forall m: Machine ensures RunsAs(tx, Flat(other), m, Run(tx, other, m.stack)) { TreeRuns(tx, other, m); }
          BranchRuns(tx, taken, other, m);
      }
      var mid := Execute(tx, first, m);
      if mid.Some? { TreeRuns(tx, code[1..], mid.value); }
    }
  }

  lemma NothingRuns(tx: Spending, m: Machine)
    ensures RunsAs(tx, Flat([]), m, Run(tx, [], m.stack))
  {
  }

  lemma {:induction false} RunAppend(tx: Spending, a: seq<Code>, b: seq<Code>, stack: seq<Bytes>)
    ensures Run(tx, a + b, stack) == match Run(tx, a, stack) case None => None case Some(next) => Run(tx, b, next)
    decreases a
  {
    hide RunOne;
    if a == [] {
      assert a + b == b;
    } else {
      assert (a + b)[0] == a[0] && (a + b)[1..] == a[1..] + b;
      var next := RunOne(tx, a[0], stack);
      if next.Some? { RunAppend(tx, a[1..], b, next.value); }
    }
  }

  lemma FlatNothing()
    ensures Flat([]) == [] && Structured([])
  {
  }

  lemma {:induction false} FlatAppend(a: seq<Code>, b: seq<Code>)
    ensures Flat(a + b) == Flat(a) + Flat(b)
    ensures Structured(a + b) <==> Structured(a) && Structured(b)
    decreases a
  {
    hide Flat, Structured;
    if a == [] {
      assert a + b == b;
      FlatNothing();
    } else {
      assert (a + b)[0] == a[0] && (a + b)[1..] == a[1..] + b;
      FlatFirst(a);
      FlatFirst(a + b);
      FlatAppend(a[1..], b);
      assert Flat([a[0]]) + Flat(a[1..]) + Flat(b) == Flat([a[0]]) + (Flat(a[1..]) + Flat(b));
    }
  }

  // ----- Elements that do not branch -----

  function Plain(elements: seq<Element>): (code: seq<Code>)
    ensures |code| == |elements| && forall i :: 0 <= i < |elements| ==> code[i] == Do(elements[i])
  {
    seq(|elements|, i requires 0 <= i < |elements| => Do(elements[i]))
  }

  function Then(tx: Spending, stack: Option<seq<Bytes>>, e: Element): Option<seq<Bytes>> {
    match stack case None => None case Some(s) => Operate(tx, e, s)
  }

  lemma {:induction false} PlainFlat(elements: seq<Element>)
    requires forall i :: 0 <= i < |elements| ==> !IsBranching(elements[i].opcode)
    ensures Flat(Plain(elements)) == elements && Structured(Plain(elements))
    decreases elements
  {
    if elements != [] {
      var rest := Plain(elements)[1..];
      assert rest == Plain(elements[1..]);
      PlainFlat(elements[1..]);
      assert elements == [elements[0]] + elements[1..];
    }
  }

  lemma PlainOne(tx: Spending, a: Element, stack: seq<Bytes>)
    ensures Run(tx, Plain([a]), stack) == Operate(tx, a, stack)
  {
    RunAlone(tx, Do(a), stack);
    assert Plain([a]) == [Do(a)];
  }

  lemma PlainNext(tx: Spending, front: seq<Element>, e: Element, stack: seq<Bytes>)
    ensures Run(tx, Plain(front + [e]), stack) == Then(tx, Run(tx, Plain(front), stack), e)
  {
    hide Operate, Run;
    assert Plain(front + [e]) == Plain(front) + Plain([e]);
    RunAppend(tx, Plain(front), Plain([e]), stack);
    var next := Run(tx, Plain(front), stack);
    if next.Some? { PlainOne(tx, e, next.value); }
  }

  lemma PlainTwo(tx: Spending, a: Element, b: Element, stack: seq<Bytes>)
    ensures Run(tx, Plain([a, b]), stack) == Then(tx, Operate(tx, a, stack), b)
  {
    hide Operate, Run;
    PlainOne(tx, a, stack);
    PlainNext(tx, [a], b, stack);
    assert [a] + [b] == [a, b];
  }

  lemma PlainThree(tx: Spending, a: Element, b: Element, c: Element, stack: seq<Bytes>)
    ensures Run(tx, Plain([a, b, c]), stack) == Then(tx, Then(tx, Operate(tx, a, stack), b), c)
  {
    hide Operate, Run;
    PlainTwo(tx, a, b, stack);
    PlainNext(tx, [a, b], c, stack);
    assert [a, b] + [c] == [a, b, c];
  }

  lemma PlainFour(tx: Spending, a: Element, b: Element, c: Element, d: Element, stack: seq<Bytes>)
    ensures Run(tx, Plain([a, b, c, d]), stack) == Then(tx, Then(tx, Then(tx, Operate(tx, a, stack), b), c), d)
  {
    hide Operate, Run;
    PlainThree(tx, a, b, c, stack);
    PlainNext(tx, [a, b, c], d, stack);
    assert [a, b, c] + [d] == [a, b, c, d];
  }

  // ----- Opcodes on the items they use -----

  lemma TopOf(stack: seq<Bytes>, x: Bytes)
    ensures Top(stack + [x]) == Some((stack, x))
  {
    assert (stack + [x])[..|stack|] == stack;
  }

  lemma Pushing(tx: Spending, e: Element, stack: seq<Bytes>)
    requires Pushed(e).Some?
    ensures Operate(tx, e, stack) == Some(stack + [Pushed(e).value])
  {
  }

  /** One item in, one or none out. */
  lemma OnTop(tx: Spending, opcode: byte, base: seq<Bytes>, x: Bytes)
    requires Pushed(OpElement(opcode)).None? && opcode !in {OP_TX_INPUT_INDEX, OP_TX_OUTPUT_COUNT}
    ensures opcode == OP_DROP ==> Operate(tx, OpElement(opcode), base + [x]) == Some(base)
    ensures opcode == OP_DUP ==> Operate(tx, OpElement(opcode), base + [x]) == Some(base + [x] + [x])
    ensures opcode == OP_CHECKLOCKTIMEVERIFY ==>
              Operate(tx, OpElement(opcode), base + [x]) == if tx.reached(LittleEndian(x)) then Some(base) else None
    ensures Replaced(tx, opcode, x).Some? && opcode !in {OP_DROP, OP_DUP, OP_CHECKLOCKTIMEVERIFY} ==>
              Operate(tx, OpElement(opcode), base + [x]) == Some(base + [Replaced(tx, opcode, x).value])
  {
    hide Replaced;
    TopOf(base, x);
  }

  /** Two items in. */
  lemma OnTwo(tx: Spending, opcode: byte, base: seq<Bytes>, y: Bytes, x: Bytes)
    requires opcode in {OP_SWAP, OP_CAT, OP_EQUAL, OP_EQUALVERIFY, OP_CHECKSIG, OP_CHECKSIGVERIFY}
    ensures Operate(tx, OpElement(opcode), base + [y] + [x])
         == match Joined(tx, opcode, y, x) case None => None case Some(items) => Some(base + items)
  {
    hide Joined;
    TopOf(base + [y], x);
    TopOf(base, y);
  }

  /** A pushed number reads as itself, and different numbers are different bytes. */
  lemma NumberBytes(value: uint64)
    ensures Pushed(IntElement(value)) == Some(Minimal(value)) && LittleEndian(Minimal(value)) == value
    ensures !IsBranching(IntElement(value).opcode)
  {
    MinimalFits(value);
    var digits := Digits(value);
    AppendZero(digits);
    if 0 < value <= 16 {
      NoBytes();
      assert Digits(value) == [value % 0x100] + Digits(value / 0x100) == [value];
      assert Minimal(value) == [value];
    }
  }

  /** Looking up an output by a pushed number. */
  lemma LookingUp(tx: Spending, opcode: byte, base: seq<Bytes>, index: uint64)
    requires opcode in {OP_TX_OUTPUT_SPK, OP_TX_OUTPUT_AMOUNT}
    ensures Operate(tx, OpElement(opcode), base + [Minimal(index)])
         == if index >= |tx.outputs| then None
            else Some(base + [if opcode == OP_TX_OUTPUT_SPK then tx.outputs[index].spk else Minimal(tx.outputs[index].amount)])
  {
    hide Minimal;
    NumberBytes(index);
    TopOf(base, Minimal(index));
    if index >= |tx.outputs| { NotFound(tx, opcode, base, Minimal(index)); } else { OnTop(tx, opcode, base, Minimal(index)); }
  }

  lemma NotFound(tx: Spending, opcode: byte, base: seq<Bytes>, x: Bytes)
    requires opcode in {OP_TX_OUTPUT_SPK, OP_TX_OUTPUT_AMOUNT} && LittleEndian(x) >= |tx.outputs|
    ensures Operate(tx, OpElement(opcode), base + [x]) == None
  {
    TopOf(base, x);
  }

  lemma StructuredBranch(taken: seq<Code>, other: seq<Code>)
    ensures Structured([Branch(taken, other)]) <==> Structured(taken) && Structured(other)
  {
    assert [Branch(taken, other)][1..] == [];
  }

  lemma DataBytes(data: seq<byte>)
    ensures Pushed(DataElement(data)) == Some(data) && !IsBranching(DataElement(data).opcode)
  {
  }

  lemma OneIsTooFew(tx: Spending, x: Bytes)
    ensures Operate(tx, OpElement(OP_CHECKSIGVERIFY), [] + [x]) == None
    ensures Operate(tx, OpElement(OP_EQUALVERIFY), [] + [x]) == None
    ensures Operate(tx, OpElement(OP_CHECKSIG), [] + [x]) == None
  {
    TopOf([], x);
  }

  /** `<key> CHECKSIGVERIFY`. */
  lemma CheckKey(tx: Spending, key: Bytes, base: seq<Bytes>, signature: Bytes)
    ensures Run(tx, Plain([DataElement(key), OpElement(OP_CHECKSIGVERIFY)]), base + [signature])
         == if tx.signed(signature, key) then Some(base) else None
    ensures Run(tx, Plain([DataElement(key), OpElement(OP_CHECKSIGVERIFY)]), []) == None
  {
    hide Operate;
    DataBytes(key);
    PlainTwo(tx, DataElement(key), OpElement(OP_CHECKSIGVERIFY), base + [signature]);
    PlainTwo(tx, DataElement(key), OpElement(OP_CHECKSIGVERIFY), []);
    Pushing(tx, DataElement(key), base + [signature]);
    Pushing(tx, DataElement(key), []);
    OnTwo(tx, OP_CHECKSIGVERIFY, base, signature, key);
    OneIsTooFew(tx, key);
    assert base + [] == base;
  }

  /** `<locktime> CHECKLOCKTIMEVERIFY`. */
  lemma CheckLock(tx: Spending, locktime: uint64, base: seq<Bytes>)
    ensures Run(tx, Plain([IntElement(locktime), OpElement(OP_CHECKLOCKTIMEVERIFY)]), base)
         == if tx.reached(locktime) then Some(base) else None
  {
    hide Operate, IntElement, Minimal;
    NumberBytes(locktime);
    PlainTwo(tx, IntElement(locktime), OpElement(OP_CHECKLOCKTIMEVERIFY), base);
    Pushing(tx, IntElement(locktime), base);
    OnTop(tx, OP_CHECKLOCKTIMEVERIFY, base, Minimal(locktime));
  }
}
