/** What `pure_effect` is for: stack heights under every outcome of the computed
    conditions, and the proof that its answer is exact. */
module CovenantHeights {
  import opened Common
  import opened CovenantScript
  import opened CovenantTrace
  import opened CovenantOpcodes

  /** Whether the opcode fails on `h` items, for some number on top. */
  ghost predicate OpMayUnderflow(opcode: byte, h: nat) {
    exists number: nat :: Operate(opcode, number, Mades(h)).None?
  }

  /** The heights it can leave; no opcode leaves more than three items more. */
  ghost function OpEnds(opcode: byte, h: nat): set<nat> {
    set end: nat | end < h + 4 && MayLeave(opcode, h, end)
  }

  ghost predicate MayLeave(opcode: byte, h: nat, end: nat) {
    exists number: nat :: LeavesHeight(opcode, number, h, end)
  }

  predicate LeavesHeight(opcode: byte, number: nat, h: nat, end: nat) {
    var r := Operate(opcode, number, Mades(h));
    r.Some? && |r.value| == end
  }

  lemma OpIsExact(opcode: byte, h: nat)
    requires StackEffect(opcode).Some?
    ensures var (pops, pushes) := StackEffect(opcode).value;
            && (OpMayUnderflow(opcode, h) <==> h < pops)
            && OpEnds(opcode, h) == if h < pops then {} else {h - pops + pushes}
  {
    var (pops, pushes) := StackEffect(opcode).value;
    forall number: nat
      ensures Operate(opcode, number, Mades(h)).None? <==> h < pops
      ensures h >= pops ==> |Operate(opcode, number, Mades(h)).value| == h - pops + pushes
    {
      hide Operate, StackEffect;
      EffectHolds(opcode, number, Mades(h));
    }
    assert pushes <= pops + 2;
    hide Operate;
    if h < pops {
      assert Operate(opcode, 0, Mades(h)).None?;
    } else {
      assert LeavesHeight(opcode, 0, h, h - pops + pushes);
      assert MayLeave(opcode, h, h - pops + pushes);
    }
  }

  /** Whether some outcome of the nested conditions makes `node` pop from an
      empty stack, from height `h`. */
  ghost predicate NodeMayUnderflow(node: Node, h: nat)
    decreases node, 0
  {
    match node
    case Push => false
    case KeyCheck(_, _) => h < 1
    case Op(opcode) => OpMayUnderflow(opcode, h)
    case Branch(_, _, thenArm, elseArm) => h < 1 || MayUnderflow(thenArm, h - 1) || MayUnderflow(elseArm, h - 1)
  }

  ghost predicate MayUnderflow(nodes: seq<Node>, h: nat)
    decreases nodes, 1
  {
    && nodes != []
    && (NodeMayUnderflow(nodes[0], h)
        || exists next :: next in NodeEnds(nodes[0], h) && MayUnderflow(nodes[1..], next))
  }

  /** Every height `node` can leave, from height `h`. */
  ghost function NodeEnds(node: Node, h: nat): set<nat>
    decreases node, 0
  {
    match node
    case Push => {h + 1}
    case KeyCheck(_, verify) => if h < 1 then {} else if verify then {h - 1} else {h}
    case Op(opcode) => OpEnds(opcode, h)
    case Branch(_, _, thenArm, elseArm) => if h < 1 then {} else Ends(thenArm, h - 1) + Ends(elseArm, h - 1)
  }

  ghost function Ends(nodes: seq<Node>, h: nat): set<nat>
    decreases nodes, 1
  {
    if nodes == [] then {h}
    else set middle, end | middle in NodeEnds(nodes[0], h) && end in Ends(nodes[1..], middle) :: end
  }

  lemma {:induction false} StepIsExact(node: Node, depth: int, need: nat, base: nat)
    requires need + depth >= 0 && base >= need && PureStep(node, depth, need).Ok?
    ensures var (depth', need') := PureStep(node, depth, need).value;
            && (NodeMayUnderflow(node, base + depth) <==> base < need')
            && (base >= need' ==> NodeEnds(node, base + depth) == {base + depth'})
    decreases node, 0
  {
    hide OpMayUnderflow, OpEnds, StackEffect, MayUnderflow, Ends, PureFrom;
    match node
    case Push =>
    case KeyCheck(_, _) =>
    case Op(opcode) => OpIsExact(opcode, base + depth);
    case Branch(_, _, thenArm, elseArm) =>
      if base + depth >= 1 {
        PureEffectIsExact(thenArm, base + depth - 1);
        PureEffectIsExact(elseArm, base + depth - 1);
      }
  }

  lemma {:induction false} PureFromIsExact(nodes: seq<Node>, depth: int, need: nat, base: nat)
    requires need + depth >= 0 && base >= need && PureFrom(nodes, depth, need).Ok?
    ensures var (finalNeed, delta) := PureFrom(nodes, depth, need).value;
            && (MayUnderflow(nodes, base + depth) <==> base < finalNeed)
            && (base >= finalNeed ==> Ends(nodes, base + depth) == {base + delta})
    decreases nodes, 1
  {
    if nodes != [] {
      StepIsExact(nodes[0], depth, need, base);
      var (depth', need') := PureStep(nodes[0], depth, need).value;
      if base >= need' {
        PureFromIsExact(nodes[1..], depth', need', base);
        assert base + depth' in NodeEnds(nodes[0], base + depth);
      }
    }
  }

  /** `need` is the least height from which no outcome underflows, and from any
      such height every outcome ends `delta` higher. */
  lemma {:induction false} PureEffectIsExact(nodes: seq<Node>, h: nat)
    requires PureEffect(nodes).Ok?
    ensures var (need, delta) := PureEffect(nodes).value;
            && (MayUnderflow(nodes, h) <==> h < need)
            && (h >= need ==> h + delta >= 0 && Ends(nodes, h) == {h + delta})
    decreases nodes, 2
  {
    hide PureFrom, MayUnderflow, Ends;
    PureFromIsExact(nodes, 0, 0, h);
  }
}
