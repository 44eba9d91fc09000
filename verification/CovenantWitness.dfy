/** The traced items are the one witness that fits: run by the byte machine
    along the assigned path, a witness is used up without a fault exactly when
    it is the trace. */
module CovenantWitness {
  import opened Common
  import opened CovenantScript
  import opened CovenantTrace
  import opened CovenantOpcodes
  import opened CovenantMachine
  import P = CovenantParser

  /** `n` script-made items above the waiting witness. */
  function Stack(n: nat, offered: seq<WitnessItem>): seq<Item> {
    seq(n, _ => Made) + Waiting(offered)
  }

  lemma StackPush(n: nat, offered: seq<WitnessItem>)
    ensures [Made] + Stack(n, offered) == Stack(n + 1, offered)
    ensures n > 0 ==> Stack(n, offered)[0] == Made && Stack(n, offered)[1..] == Stack(n - 1, offered)
  {
  }

  /** An opcode with a fixed effect trades items that the script made for others
      that it made, whatever the number on top. */
  lemma StackTrades(opcode: byte, number: nat, n: nat, offered: seq<WitnessItem>)
    requires StackEffect(opcode).Some? && StackEffect(opcode).value.0 <= n
    ensures var (pops, pushes) := StackEffect(opcode).value;
            Operate(opcode, number, Stack(n, offered)) == Some(Stack(n - pops + pushes, offered))
  {
    hide Operate, StackEffect;
    var (pops, pushes) := StackEffect(opcode).value;
    var stack := Stack(n, offered);
    EffectHolds(opcode, number, stack);
    assert Own(stack, pops);
    var r := Operate(opcode, number, stack).value;
    assert forall i :: 0 <= i < pops ==> stack[..pops][i] == Made;
    assert stack[pops..] == Stack(n - pops, offered);
    assert r == r[..pushes] + r[pushes..];
    assert Stack(n - pops + pushes, offered) == seq(pushes, _ => Made) + Stack(n - pops, offered);
    assert r[..pushes] == seq(pushes, _ => Made);
  }

  lemma StackTop(offered: seq<WitnessItem>)
    ensures offered == [] ==> Stack(0, offered) == []
    ensures |Stack(0, offered)| == |offered|
    ensures offered != [] ==> Stack(0, offered)[0] == Witness(offered[0]) && Stack(0, offered)[1..] == Stack(0, offered[1..])
  {
    if offered != [] { assert Stack(0, offered)[1..] == Stack(0, offered[1..]); }
  }

  // ----- Blocks without keys never reach the witness -----

  lemma {:induction false} PureNodeRuns(spend: Spend, node: Node, depth: int, need: nat, base: nat,
                                        offered: seq<WitnessItem>, spent: seq<WitnessItem>)
    requires need + depth >= 0 && PureStep(node, depth, need).Ok? && base >= PureStep(node, depth, need).value.1
    ensures base + PureStep(node, depth, need).value.0 >= 0
    ensures ExecNode(spend, node, Live(Stack(base + depth, offered), spent))
            == Live(Stack(base + PureStep(node, depth, need).value.0, offered), spent)
    decreases node, 0
  {
    var h: nat := base + depth;
    match node
    case Push => StackPush(h, offered);
    case KeyCheck(_, _) =>
    case Op(opcode) =>
      StackTrades(opcode, spend.numbers(Stack(h, offered)), h, offered);
      hide Operate;
    case Branch(bit, notif, thenArm, elseArm) =>
      StackPush(h, offered);
      if (bit in spend.outcomes) != notif {
        PureBlockRuns(spend, thenArm, h - 1, offered, spent);
      } else {
        PureBlockRuns(spend, elseArm, h - 1, offered, spent);
      }
      assert spent + [] == spent;
  }

  lemma {:induction false} PureFromRuns(spend: Spend, nodes: seq<Node>, depth: int, need: nat, base: nat,
                                        offered: seq<WitnessItem>, spent: seq<WitnessItem>)
    requires need + depth >= 0 && PureFrom(nodes, depth, need).Ok? && base >= PureFrom(nodes, depth, need).value.0
    ensures base + PureFrom(nodes, depth, need).value.1 >= 0
    ensures ExecNodes(spend, nodes, Live(Stack(base + depth, offered), spent))
            == Live(Stack(base + PureFrom(nodes, depth, need).value.1, offered), spent)
    decreases nodes, 1
  {
    if nodes != [] {
      var (depth', need') := PureStep(nodes[0], depth, need).value;
      PureNodeRuns(spend, nodes[0], depth, need, base, offered, spent);
      PureFromRuns(spend, nodes[1..], depth', need', base, offered, spent);
    }
  }

  /** With the items it needs below it, a key-free block runs on those alone,
      whatever its conditions turn out to be. */
  lemma {:induction false} PureBlockRuns(spend: Spend, nodes: seq<Node>, h: nat,
                                         offered: seq<WitnessItem>, spent: seq<WitnessItem>)
    requires PureEffect(nodes).Ok? && h >= PureEffect(nodes).value.0
    ensures h + PureEffect(nodes).value.1 >= 0
    ensures ExecNodes(spend, nodes, Live(Stack(h, offered), spent)) == Live(Stack(h + PureEffect(nodes).value.1, offered), spent)
    decreases nodes, 2
  {
    PureFromRuns(spend, nodes, 0, 0, h, offered, spent);
  }

  // ----- The walk against the execution -----

  /** Computed conditions turn out as assigned wherever an arm checks a key. */
  predicate NamedNode(spend: Spend, node: Node)
    decreases node, 0
  {
    node.Branch? ==>
      && (HoldsKeyCheck(node.thenArm) || HoldsKeyCheck(node.elseArm) ==> (node.bit in spend.outcomes <==> node.bit in spend.truth))
      && KeyedArmsAsNamed(spend, node.thenArm) && KeyedArmsAsNamed(spend, node.elseArm)
  }

  predicate KeyedArmsAsNamed(spend: Spend, nodes: seq<Node>)
    decreases nodes, 1
  {
    nodes != [] ==> NamedNode(spend, nodes[0]) && KeyedArmsAsNamed(spend, nodes[1..])
  }

  /** What an execution that must consume `used` does with the witness offered:
      it takes exactly that prefix, or it stops. */
  function Consume(produced: nat, used: seq<WitnessItem>, offered: seq<WitnessItem>, spent: seq<WitnessItem>): TreeState {
    if used <= offered then Live(Stack(produced, offered[|used|..]), spent + used) else Dead
  }

  function Used(w: WalkState, end: WalkState): seq<WitnessItem> {
    if |w.items| <= |end.items| then end.items[|w.items|..] else []
  }

  lemma {:induction false} WalkNodeGrows(node: Node, truth: Mask, w: WalkState)
    requires WalkNode(node, truth, w).Ok?
    ensures w.items <= WalkNode(node, truth, w).value.items
    decreases node, 0
  {
    if node.Branch? {
      if w.produced == 0 {
        WalkNodesGrow(NamedArm(node, truth), truth, w.(items := w.items + [Selector(node.bit in truth)]));
      } else if HoldsKeyCheck(node.thenArm) || HoldsKeyCheck(node.elseArm) {
        WalkNodesGrow(NamedArm(node, truth), truth, w.(produced := w.produced - 1));
      }
    }
  }

  lemma {:induction false} WalkNodesGrow(nodes: seq<Node>, truth: Mask, w: WalkState)
    requires WalkNodes(nodes, truth, w).Ok?
    ensures w.items <= WalkNodes(nodes, truth, w).value.items
    decreases nodes, 1
  {
    if nodes != [] {
      WalkNodeGrows(nodes[0], truth, w);
      WalkNodesGrow(nodes[1..], truth, WalkNode(nodes[0], truth, w).value);
    }
  }

  lemma {:induction false} DeadStaysDead(spend: Spend, nodes: seq<Node>)
    ensures ExecNodes(spend, nodes, Dead) == Dead
    decreases nodes
  {
    if nodes != [] {
      if nodes[0].Branch? {
        DeadStaysDead(spend, nodes[0].thenArm);
        DeadStaysDead(spend, nodes[0].elseArm);
      }
      DeadStaysDead(spend, nodes[1..]);
    }
  }

  lemma PrefixInTurn(first: seq<WitnessItem>, rest: seq<WitnessItem>, offered: seq<WitnessItem>)
    ensures first + rest <= offered <==> first <= offered && rest <= offered[|first|..]
    ensures first + rest <= offered ==> offered[|first + rest|..] == offered[|first|..][|rest|..]
  {
    if first <= offered && rest <= offered[|first|..] {
      assert offered == first + offered[|first|..];
      assert offered[|first|..] == rest + offered[|first|..][|rest|..];
      assert offered == (first + rest) + offered[|first|..][|rest|..];
    }
    if first + rest <= offered {
      assert offered == (first + rest) + offered[|first + rest|..];
      assert offered == first + (rest + offered[|first + rest|..]);
    }
  }

  /** Consuming `first` and then `rest` is consuming both. */
  lemma ConsumeInTurn(first: seq<WitnessItem>, rest: seq<WitnessItem>, offered: seq<WitnessItem>, spent: seq<WitnessItem>, produced: nat)
    ensures first + rest <= offered <==> first <= offered && rest <= offered[|first|..]
    ensures first <= offered ==> Consume(produced, first + rest, offered, spent)
                                 == Consume(produced, rest, offered[|first|..], spent + first)
    ensures !(first <= offered) ==> Consume(produced, first + rest, offered, spent) == Dead
  {
    hide Stack;
    PrefixInTurn(first, rest, offered);
    assert spent + (first + rest) == (spent + first) + rest;
  }

  /** A branch on a witness selector, given what its named arm consumes. */
  lemma SelectorConsumes(spend: Spend, node: Node, produced: nat, rest: seq<WitnessItem>,
                         offered: seq<WitnessItem>, spent: seq<WitnessItem>)
    requires node.Branch?
    requires var s := Selector(node.bit in spend.truth);
             offered != [] && offered[0] == s ==>
               ExecNodes(spend, NamedArm(node, spend.truth), Live(Stack(0, offered[1..]), spent + [s]))
               == Consume(produced, rest, offered[1..], spent + [s])
    ensures ExecNode(spend, node, Live(Stack(0, offered), spent))
            == Consume(produced, [Selector(node.bit in spend.truth)] + rest, offered, spent)
  {
    hide ExecNodes, Stack;
    var s := [Selector(node.bit in spend.truth)];
    StackTop(offered);
    ConsumeInTurn(s, rest, offered, spent, produced);
    DeadStaysDead(spend, node.thenArm);
    DeadStaysDead(spend, node.elseArm);
    if offered != [] && offered[0] == s[0] {
      assert s <= offered && offered[|s|..] == offered[1..];
    } else {
      assert !(s <= offered);
    }
  }

  /** A branch on a computed condition runs the arm its outcome names. */
  lemma ComputedBranch(spend: Spend, node: Node, h: nat, offered: seq<WitnessItem>, spent: seq<WitnessItem>)
    requires node.Branch? && h > 0
    ensures ExecNode(spend, node, Live(Stack(h, offered), spent))
            == ExecNodes(spend, if (node.bit in spend.outcomes) != node.notif then node.thenArm else node.elseArm,
                         Live(Stack(h - 1, offered), spent))
  {
    hide ExecNodes;
    StackPush(h, offered);
    assert spent + [] == spent;
  }

  lemma PlainConsumes(spend: Spend, node: Node, w: WalkState, offered: seq<WitnessItem>, spent: seq<WitnessItem>)
    requires (node.Push? || node.Op?) && WalkNode(node, spend.truth, w).Ok?
    ensures var end := WalkNode(node, spend.truth, w).value;
            ExecNode(spend, node, Live(Stack(w.produced, offered), spent)) == Consume(end.produced, Used(w, end), offered, spent)
  {
    hide StackEffect, Operate;
    var end := WalkNode(node, spend.truth, w).value;
    StackPush(w.produced, offered);
    if node.Op? { StackTrades(node.opcode, spend.numbers(Stack(w.produced, offered)), w.produced, offered); }
    assert Used(w, end) == [] && offered[0..] == offered && spent + [] == spent;
  }

  lemma KeyConsumes(spend: Spend, node: Node, w: WalkState, offered: seq<WitnessItem>, spent: seq<WitnessItem>)
    requires node.KeyCheck? && WalkNode(node, spend.truth, w).Ok?
    ensures var end := WalkNode(node, spend.truth, w).value;
            ExecNode(spend, node, Live(Stack(w.produced, offered), spent)) == Consume(end.produced, Used(w, end), offered, spent)
  {
    hide Stack;
    var end := WalkNode(node, spend.truth, w).value;
    StackTop(offered);
    assert Used(w, end) == [Signature(node.position)];
    if offered != [] {
      StackPush(0, offered[1..]);
      assert [] + Stack(0, offered[1..]) == Stack(0, offered[1..]);
    }
  }

  lemma SimpleConsumes(spend: Spend, node: Node, w: WalkState, offered: seq<WitnessItem>, spent: seq<WitnessItem>)
    requires !node.Branch? && WalkNode(node, spend.truth, w).Ok?
    ensures var end := WalkNode(node, spend.truth, w).value;
            ExecNode(spend, node, Live(Stack(w.produced, offered), spent)) == Consume(end.produced, Used(w, end), offered, spent)
  {
    hide ExecNode, Stack, WalkNode, Consume;
    if node.KeyCheck? {
      KeyConsumes(spend, node, w, offered, spent);
    } else {
      PlainConsumes(spend, node, w, offered, spent);
    }
  }

  lemma {:induction false} NodeConsumes(spend: Spend, node: Node, w: WalkState, offered: seq<WitnessItem>, spent: seq<WitnessItem>)
    requires WalkNode(node, spend.truth, w).Ok? && NamedNode(spend, node)
    ensures var end := WalkNode(node, spend.truth, w).value;
            ExecNode(spend, node, Live(Stack(w.produced, offered), spent)) == Consume(end.produced, Used(w, end), offered, spent)
    decreases node, 0
  {
    hide ExecNode, ExecNodes, Stack, WalkNodes, Consume, PureEffect, StackEffect, HoldsKeyCheck;
    if !node.Branch? {
      SimpleConsumes(spend, node, w, offered, spent);
    } else {
      var arm, end := NamedArm(node, spend.truth), WalkNode(node, spend.truth, w).value;
      if w.produced == 0 {
        var s := Selector(node.bit in spend.truth);
        var w1 := w.(items := w.items + [s]);
        WalkNodesGrow(arm, spend.truth, w1);
        if offered != [] { NodesConsume(spend, arm, w1, offered[1..], spent + [s]); }
        SelectorConsumes(spend, node, end.produced, Used(w1, end), offered, spent);
        assert Used(w, end) == [s] + Used(w1, end);
      } else {
        ComputedBranch(spend, node, w.produced, offered, spent);
        if HoldsKeyCheck(node.thenArm) || HoldsKeyCheck(node.elseArm) {
          var w1 := w.(produced := w.produced - 1);
          WalkNodesGrow(arm, spend.truth, w1);
          NodesConsume(spend, arm, w1, offered, spent);
          assert Used(w, end) == Used(w1, end);
        } else {
          var taken := if (node.bit in spend.outcomes) != node.notif then node.thenArm else node.elseArm;
          PureBlockRuns(spend, taken, w.produced - 1, offered, spent);
          assert Used(w, end) == [];
          ConsumeNothing(end.produced, offered, spent);
        }
      }
    }
  }

  lemma ConsumeNothing(produced: nat, offered: seq<WitnessItem>, spent: seq<WitnessItem>)
    ensures Consume(produced, [], offered, spent) == Live(Stack(produced, offered), spent)
  {
    assert offered[0..] == offered && spent + [] == spent;
  }

  /** The walk lists exactly what the execution takes from the witness: offered
      any other items, the execution stops. */
  lemma {:induction false} NodesConsume(spend: Spend, nodes: seq<Node>, w: WalkState, offered: seq<WitnessItem>, spent: seq<WitnessItem>)
    requires WalkNodes(nodes, spend.truth, w).Ok? && KeyedArmsAsNamed(spend, nodes)
    ensures var end := WalkNodes(nodes, spend.truth, w).value;
            ExecNodes(spend, nodes, Live(Stack(w.produced, offered), spent)) == Consume(end.produced, Used(w, end), offered, spent)
    decreases nodes, 1
  {
    hide ExecNode, Stack, WalkNode, Consume;
    var end := WalkNodes(nodes, spend.truth, w).value;
    if nodes == [] {
      ConsumeNothing(w.produced, offered, spent);
      assert Used(w, end) == [];
    } else {
      var mid := WalkNode(nodes[0], spend.truth, w).value;
      var first, rest := Used(w, mid), Used(mid, end);
      WalkNodeGrows(nodes[0], spend.truth, w);
      WalkNodesGrow(nodes[1..], spend.truth, mid);
      assert Used(w, end) == first + rest;
      NodeConsumes(spend, nodes[0], w, offered, spent);
      ConsumeInTurn(first, rest, offered, spent, end.produced);
      DeadStaysDead(spend, nodes[1..]);
      FirstConsumed(mid.produced, first, offered, spent);
      if first <= offered {
        NodesConsume(spend, nodes[1..], mid, offered[|first|..], spent + first);
      }
    }
  }

  lemma FirstConsumed(produced: nat, used: seq<WitnessItem>, offered: seq<WitnessItem>, spent: seq<WitnessItem>)
    ensures Consume(produced, used, offered, spent)
            == if used <= offered then Live(Stack(produced, offered[|used|..]), spent + used) else Dead
  {
  }

  // ----- Main result -----

  /** The machine finished, outside every condition, with no witness item left. */
  predicate UsedUp(end: Machine) {
    end.Running? && end.conditions == [] && forall i :: 0 <= i < |end.stack| ==> !end.stack[i].Witness?
  }

  /** Whenever `trace_witness` answers, its items are the one witness that runs
      the script along the assigned path and is used up by it, under every
      outcome of the computed conditions that follows the assignment where an
      arm checks a key; and they are spent in the listed order. */
  lemma TraceIsTheWitness(spend: Spend, supplied: Mask, offered: seq<WitnessItem>)
    requires Trace(spend.script, supplied, spend.truth).Ok?
    requires KeyedArmsAsNamed(spend, P.Parse(spend.script).value.0)
    ensures var items := Trace(spend.script, supplied, spend.truth).value;
            && (UsedUp(RunScript(spend, offered)) <==> offered == items)
            && (offered == items ==> RunScript(spend, offered).spent == items)
            && (items < offered ==> RunScript(spend, offered).Running?)
            && (!(items <= offered) ==> RunScript(spend, offered) == Stuck)
  {
    hide ExecNodes, WalkNodes, P.Parse, RunScript, KeyedArmsAsNamed;
    var root := P.Parse(spend.script).value.0;
    var items, w := Trace(spend.script, supplied, spend.truth).value, WalkState(0, []);
    var end := WalkNodes(root, spend.truth, w).value;
    ParsingKeepsExecution(spend, offered);
    NodesConsume(spend, root, w, offered, []);
    assert Stack(0, offered) == Waiting(offered);
    assert Used(w, end) == items;
    var run := RunScript(spend, offered);
    if items <= offered {
      var left := offered[|items|..];
      assert offered == items + left;
      var stack := Stack(end.produced, left);
      assert Erase(run.stack) == stack;
      assert forall i :: 0 <= i < |run.stack| ==> run.stack[i].Witness? == stack[i].Witness?;
      if left != [] { assert stack[end.produced] == Witness(left[0]); }
    }
  }
}
