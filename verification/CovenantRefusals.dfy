/** What the tracer refuses: scripts that no witness runs, and branches on
    computed conditions whose outcome would matter. */
module CovenantRefusals {
  import opened Common
  import opened CovenantScript
  import opened CovenantTrace
  import opened CovenantHeights
  import opened CovenantOpcodes
  import opened CovenantMachine
  import opened CovenantWitness
  import P = CovenantParser

  // ----- Where the walk stops -----

  /** It stops at a branch on a computed condition in which no key is checked. */
  predicate NodeStopsKeyFree(node: Node, truth: Mask, w: WalkState)
    decreases node, 0
  {
    && node.Branch?
    && if w.produced == 0 then StopsKeyFree(NamedArm(node, truth), truth, w.(items := w.items + [Selector(node.bit in truth)]))
       else if HoldsKeyCheck(node.thenArm) || HoldsKeyCheck(node.elseArm)
         then StopsKeyFree(NamedArm(node, truth), truth, w.(produced := w.produced - 1))
       else WalkNode(node, truth, w).Err?
  }

  predicate StopsKeyFree(nodes: seq<Node>, truth: Mask, w: WalkState)
    decreases nodes, 1
  {
    && nodes != []
    && var next := WalkNode(nodes[0], truth, w);
       if next.Ok? then StopsKeyFree(nodes[1..], truth, next.value) else NodeStopsKeyFree(nodes[0], truth, w)
  }

  /** Somewhere stands an opcode that has no fixed effect. */
  ghost predicate NodeHoldsUnfixed(node: Node)
    decreases node, 0
  {
    match node
    case Op(opcode) => forall takes: nat, leaves: nat :: !FixedEffect(opcode, takes, leaves)
    case Branch(_, _, thenArm, elseArm) => HoldsUnfixed(thenArm) || HoldsUnfixed(elseArm)
    case _ => false
  }

  ghost predicate HoldsUnfixed(nodes: seq<Node>)
    decreases nodes, 1
  {
    nodes != [] && (NodeHoldsUnfixed(nodes[0]) || HoldsUnfixed(nodes[1..]))
  }

  // ----- Elsewhere no witness does -----

  lemma OpRefused(spend: Spend, opcode: byte, w: WalkState, offered: seq<WitnessItem>, spent: seq<WitnessItem>)
    requires WalkNode(Op(opcode), spend.truth, w).Err? && WalkNode(Op(opcode), spend.truth, w).error != UnsupportedOpcode
    ensures ExecNode(spend, Op(opcode), Live(Stack(w.produced, offered), spent)) == Dead
  {
    hide Operate, StackEffect, Stack;
    var number := spend.numbers(Stack(w.produced, offered));
    if StackEffect(opcode).Some? {
      TooFew(opcode, number, w.produced, offered);
    } else {
      ChecksFail(opcode, number, Stack(w.produced, offered));
    }
  }

  /** No signature check stands alone. */
  lemma ChecksFail(opcode: byte, number: nat, stack: seq<Item>)
    requires opcode in SIGNATURE_CHECKS
    ensures Operate(opcode, number, stack).None?
  {
  }

  /** An opcode does not reach past what the script itself put there. */
  lemma TooFew(opcode: byte, number: nat, n: nat, offered: seq<WitnessItem>)
    requires StackEffect(opcode).Some? && n < StackEffect(opcode).value.0
    ensures Operate(opcode, number, Stack(n, offered)).None?
  {
    hide Operate, StackEffect;
    EffectHolds(opcode, number, Stack(n, offered));
    if offered != [] { assert Stack(n, offered)[n] == Witness(offered[0]); }
  }

  lemma KeyRefused(spend: Spend, node: Node, w: WalkState, offered: seq<WitnessItem>, spent: seq<WitnessItem>)
    requires node.KeyCheck? && w.produced != 0
    ensures ExecNode(spend, node, Live(Stack(w.produced, offered), spent)) == Dead
  {
    hide Stack;
    StackPush(w.produced, offered);
  }

  lemma {:induction false} NodeRefused(spend: Spend, node: Node, w: WalkState, offered: seq<WitnessItem>, spent: seq<WitnessItem>)
    requires WalkNode(node, spend.truth, w).Err? && WalkNode(node, spend.truth, w).error != UnsupportedOpcode
    requires !NodeStopsKeyFree(node, spend.truth, w) && NamedNode(spend, node)
    ensures ExecNode(spend, node, Live(Stack(w.produced, offered), spent)) == Dead
    decreases node, 0
  {
    hide ExecNode, ExecNodes, Stack, WalkNodes, StackEffect, HoldsKeyCheck, StopsKeyFree, PureEffect;
    match node
    case Push =>
    case KeyCheck(_, _) => KeyRefused(spend, node, w, offered, spent);
    case Op(opcode) => OpRefused(spend, opcode, w, offered, spent);
    case Branch(_, _, _, _) =>
      var arm := NamedArm(node, spend.truth);
      if w.produced == 0 {
        var s := Selector(node.bit in spend.truth);
        if offered != [] { NodesRefused(spend, arm, w.(items := w.items + [s]), offered[1..], spent + [s]); }
        SelectorRefused(spend, node, offered, spent);
      } else {
        ComputedBranch(spend, node, w.produced, offered, spent);
        NodesRefused(spend, arm, w.(produced := w.produced - 1), offered, spent);
      }
  }

  lemma SelectorRefused(spend: Spend, node: Node, offered: seq<WitnessItem>, spent: seq<WitnessItem>)
    requires node.Branch?
    requires var s := Selector(node.bit in spend.truth);
             offered != [] ==> ExecNodes(spend, NamedArm(node, spend.truth), Live(Stack(0, offered[1..]), spent + [s])) == Dead
    ensures ExecNode(spend, node, Live(Stack(0, offered), spent)) == Dead
  {
    hide ExecNodes, Stack;
    StackTop(offered);
    DeadStaysDead(spend, node.thenArm);
    DeadStaysDead(spend, node.elseArm);
  }

  /** Where the walk stops at an opcode or at a key, so does every execution of the
      path, whatever the witness and however computed conditions turn out. */
  lemma {:induction false} NodesRefused(spend: Spend, nodes: seq<Node>, w: WalkState, offered: seq<WitnessItem>, spent: seq<WitnessItem>)
    requires WalkNodes(nodes, spend.truth, w).Err? && WalkNodes(nodes, spend.truth, w).error != UnsupportedOpcode
    requires !StopsKeyFree(nodes, spend.truth, w) && KeyedArmsAsNamed(spend, nodes)
    ensures ExecNodes(spend, nodes, Live(Stack(w.produced, offered), spent)) == Dead
    decreases nodes, 1
  {
    hide ExecNode, Stack, WalkNode, Consume, NodeStopsKeyFree;
    DeadStaysDead(spend, nodes[1..]);
    var next := WalkNode(nodes[0], spend.truth, w);
    if next.Err? {
      NodeRefused(spend, nodes[0], w, offered, spent);
    } else {
      var mid, used := next.value, Used(w, next.value);
      NodeConsumes(spend, nodes[0], w, offered, spent);
      FirstConsumed(mid.produced, used, offered, spent);
      if used <= offered { NodesRefused(spend, nodes[1..], mid, offered[|used|..], spent + used); }
    }
  }

  // ----- Opcodes without a fixed effect -----

  lemma UnknownIsUnfixed(opcode: byte)
    requires StackEffect(opcode).None?
    ensures NodeHoldsUnfixed(Op(opcode))
  {
    forall takes: nat, leaves: nat ensures !FixedEffect(opcode, takes, leaves) {
      StackEffectIsExact(opcode, takes, leaves);
    }
  }

  lemma {:induction false} PureStepUnfixed(node: Node, depth: int, need: nat)
    requires need + depth >= 0 && PureStep(node, depth, need) == Err(UnsupportedOpcode)
    ensures NodeHoldsUnfixed(node)
    decreases node, 0
  {
    hide StackEffect, PureFrom;
    match node
    case Op(opcode) => UnknownIsUnfixed(opcode);
    case Branch(_, _, thenArm, elseArm) =>
      if PureEffect(thenArm).Err? { PureFromUnfixed(thenArm, 0, 0); } else { PureFromUnfixed(elseArm, 0, 0); }
    case _ =>
  }

  lemma {:induction false} PureFromUnfixed(nodes: seq<Node>, depth: int, need: nat)
    requires need + depth >= 0 && PureFrom(nodes, depth, need) == Err(UnsupportedOpcode)
    ensures HoldsUnfixed(nodes)
    decreases nodes, 1
  {
    hide PureStep, NodeHoldsUnfixed;
    var step := PureStep(nodes[0], depth, need);
    if step.Err? { PureStepUnfixed(nodes[0], depth, need); } else { PureFromUnfixed(nodes[1..], step.value.0, step.value.1); }
  }

  lemma {:induction false} NodeUnfixed(node: Node, truth: Mask, w: WalkState)
    requires WalkNode(node, truth, w) == Err(UnsupportedOpcode)
    ensures NodeHoldsUnfixed(node)
    decreases node, 0
  {
    hide StackEffect, WalkNodes, HoldsKeyCheck, PureFrom, HoldsUnfixed;
    match node
    case Op(opcode) => UnknownIsUnfixed(opcode);
    case Branch(_, _, thenArm, elseArm) =>
      if w.produced == 0 {
        NodesUnfixed(NamedArm(node, truth), truth, w.(items := w.items + [Selector(node.bit in truth)]));
      } else if HoldsKeyCheck(thenArm) || HoldsKeyCheck(elseArm) {
        NodesUnfixed(NamedArm(node, truth), truth, w.(produced := w.produced - 1));
      } else if PureEffect(thenArm).Err? {
        PureFromUnfixed(thenArm, 0, 0);
      } else {
        PureFromUnfixed(elseArm, 0, 0);
      }
    case _ =>
  }

  lemma {:induction false} NodesUnfixed(nodes: seq<Node>, truth: Mask, w: WalkState)
    requires WalkNodes(nodes, truth, w) == Err(UnsupportedOpcode)
    ensures HoldsUnfixed(nodes)
    decreases nodes, 1
  {
    hide WalkNode, NodeHoldsUnfixed;
    var next := WalkNode(nodes[0], truth, w);
    if next.Err? { NodeUnfixed(nodes[0], truth, w); } else { NodesUnfixed(nodes[1..], truth, next.value); }
  }

  // ----- Branches without keys -----

  /** Such a branch is refused for want of items exactly when one of its arms may
      underflow, and as dependent on data when its arms, each with an effect of its
      own, end at different heights. */
  lemma KeyFreeRefusals(node: Node, truth: Mask, w: WalkState)
    requires node.Branch? && w.produced > 0 && !HoldsKeyCheck(node.thenArm) && !HoldsKeyCheck(node.elseArm)
    requires PureEffect(node.thenArm).Ok? && PureEffect(node.elseArm).Ok?
    ensures var h: nat := w.produced - 1;
            var sameEnds := PureEffect(node.thenArm).value.1 == PureEffect(node.elseArm).value.1;
            && (WalkNode(node, truth, w) == Err(DataDependentBranch) <==> !sameEnds)
            && (WalkNode(node, truth, w) == Err(WitnessDataRequired)
                <==> sameEnds && (MayUnderflow(node.thenArm, h) || MayUnderflow(node.elseArm, h)))
            && (WalkNode(node, truth, w).Ok? ==> Ends(node.thenArm, h) == Ends(node.elseArm, h))
            && (!MayUnderflow(node.thenArm, h) && !MayUnderflow(node.elseArm, h) ==>
                  (sameEnds <==> Ends(node.thenArm, h) == Ends(node.elseArm, h)))
  {
    hide MayUnderflow, Ends, PureFrom, WalkNodes;
    PureEffectIsExact(node.thenArm, w.produced - 1);
    PureEffectIsExact(node.elseArm, w.produced - 1);
    SingleEnds(w.produced - 1 + PureEffect(node.thenArm).value.1, w.produced - 1 + PureEffect(node.elseArm).value.1);
  }

  lemma SingleEnds(a: int, b: int)
    ensures {a} == {b} <==> a == b
  {
    assert a in {a};
    if {a} == {b} { assert a in {b}; }
  }

  // ----- Main result -----

  /** Once the selectors are complete, the tracer refuses a script for want of
      items or for a signature out of place only if no witness runs it along the
      assigned path, or at a branch without keys, which depends on its data; and
      for an unsupported opcode only if one stands there without a fixed effect. */
  lemma RefusedHasNoWitness(spend: Spend, supplied: Mask, offered: seq<WitnessItem>)
    requires P.Parse(spend.script).Ok? && supplied == P.Parse(spend.script).value.1 && spend.truth <= supplied
    requires Trace(spend.script, supplied, spend.truth).Err?
    requires KeyedArmsAsNamed(spend, P.Parse(spend.script).value.0)
    ensures var root, error := P.Parse(spend.script).value.0, Trace(spend.script, supplied, spend.truth).error;
            if error == UnsupportedOpcode then HoldsUnfixed(root)
            else StopsKeyFree(root, spend.truth, WalkState(0, [])) || RunScript(spend, offered) == Stuck
  {
    hide ExecNodes, WalkNodes, P.Parse, RunScript, KeyedArmsAsNamed, StopsKeyFree, HoldsUnfixed;
    var root, w := P.Parse(spend.script).value.0, WalkState(0, []);
    var error := WalkNodes(root, spend.truth, w).error;
    if error == UnsupportedOpcode {
      NodesUnfixed(root, spend.truth, w);
    } else if !StopsKeyFree(root, spend.truth, w) {
      ParsingKeepsExecution(spend, offered);
      NodesRefused(spend, root, w, offered, []);
      assert Stack(0, offered) == Waiting(offered);
    }
  }
}
