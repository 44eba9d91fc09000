/** The signatures of a trace are the resolver's keys on the assigned path. */
module CovenantSignatures {
  import opened Common
  import opened CovenantScript
  import opened CovenantAgreement
  import opened CovenantTrace
  import P = CovenantParser
  import R = CovenantResolver

  /** The key positions a trace signs, in order. */
  function SignaturePositions(items: seq<WitnessItem>): seq<nat> {
    if items == [] then []
    else
      var last := items[|items| - 1];
      SignaturePositions(items[..|items| - 1]) + if last.Signature? then [last.position] else []
  }

  /** The positions of the bindings whose path the assignment takes, in order. */
  function TakenPositions(bindings: seq<Binding>, truth: Mask): seq<nat> {
    if bindings == [] then []
    else
      (if AgreeOn(truth, bindings[0].ifs, bindings[0].decisions) then [bindings[0].position] else [])
      + TakenPositions(bindings[1..], truth)
  }

  lemma {:induction false} TakenConcat(a: seq<Binding>, b: seq<Binding>, truth: Mask)
    ensures TakenPositions(a + b, truth) == TakenPositions(a, truth) + TakenPositions(b, truth)
  {
    hide AgreeOn;
    if a == [] {
      assert a + b == b;
    } else {
      TakenConcat(a[1..], b, truth);
      assert (a + b)[1..] == a[1..] + b && (a + b)[0] == a[0];
      var first := if AgreeOn(truth, a[0].ifs, a[0].decisions) then [a[0].position] else [];
      JoinThree(first, TakenPositions(a[1..], truth), TakenPositions(b, truth));
    }
  }

  lemma JoinThree(a: seq<nat>, b: seq<nat>, c: seq<nat>)
    ensures a + b + c == a + (b + c)
  {
  }

  /** No key below a path the assignment leaves is on an assigned path. */
  lemma {:induction false} LeftPathsSignNothing(nodes: seq<Node>, decisions: Mask, ifs: Mask, truth: Mask)
    requires WellNested(nodes, decisions) && ifs <= decisions && !AgreeOn(truth, ifs, decisions)
    ensures TakenPositions(Bindings(nodes, decisions, ifs), truth) == []
    decreases nodes, 1
  {
    if nodes != [] {
      LeftNodesSignNothing(nodes[0], decisions, ifs, truth);
      LeftPathsSignNothing(nodes[1..], decisions, ifs, truth);
      TakenConcat(NodeBindings(nodes[0], decisions, ifs), Bindings(nodes[1..], decisions, ifs), truth);
    }
  }

  lemma {:induction false} LeftNodesSignNothing(node: Node, decisions: Mask, ifs: Mask, truth: Mask)
    requires WellNestedNode(node, decisions) && ifs <= decisions && !AgreeOn(truth, ifs, decisions)
    ensures TakenPositions(NodeBindings(node, decisions, ifs), truth) == []
    decreases node, 0
  {
    if node.Branch? {
      var ds := decisions + {node.bit};
      LeftPathsSignNothing(node.thenArm, ds, Wanting(ifs, node.bit, !node.notif), truth);
      LeftPathsSignNothing(node.elseArm, ds, Wanting(ifs, node.bit, node.notif), truth);
      TakenConcat(Bindings(node.thenArm, ds, Wanting(ifs, node.bit, !node.notif)),
                  Bindings(node.elseArm, ds, Wanting(ifs, node.bit, node.notif)), truth);
    }
  }

  lemma {:induction false} KeyFreeBindings(nodes: seq<Node>, decisions: Mask, ifs: Mask)
    requires !HoldsKeyCheck(nodes)
    ensures Bindings(nodes, decisions, ifs) == []
    decreases nodes, 1
  {
    if nodes != [] {
      if nodes[0].Branch? {
        var node, ds := nodes[0], decisions + {nodes[0].bit};
        KeyFreeBindings(node.thenArm, ds, Wanting(ifs, node.bit, !node.notif));
        KeyFreeBindings(node.elseArm, ds, Wanting(ifs, node.bit, node.notif));
      }
      KeyFreeBindings(nodes[1..], decisions, ifs);
    }
  }

  lemma NothingTaken(truth: Mask)
    ensures TakenPositions([], truth) == []
  {
  }

  lemma KeySigns(items: seq<WitnessItem>, position: nat, decisions: Mask, ifs: Mask, truth: Mask)
    requires AgreeOn(truth, ifs, decisions)
    ensures SignaturePositions(items + [Signature(position)])
            == SignaturePositions(items) + TakenPositions([Binding(position, decisions, ifs)], truth)
  {
    assert (items + [Signature(position)])[..|items|] == items;
    assert [Binding(position, decisions, ifs)][1..] == [];
  }

  lemma SelectorSignsNothing(items: seq<WitnessItem>, supplied: bool)
    ensures SignaturePositions(items + [Selector(supplied)]) == SignaturePositions(items)
  {
    assert (items + [Selector(supplied)])[..|items|] == items;
  }

  /** Of a branch on the assigned path, the named arm alone stays on it. */
  lemma BranchSigns(node: Node, decisions: Mask, ifs: Mask, truth: Mask) returns (armIfs: Mask)
    requires node.Branch? && WellNestedNode(node, decisions) && ifs <= decisions && AgreeOn(truth, ifs, decisions)
    ensures var arm, ds := NamedArm(node, truth), decisions + {node.bit};
            && armIfs <= ds && AgreeOn(truth, armIfs, ds) && WellNested(arm, ds)
            && TakenPositions(NodeBindings(node, decisions, ifs), truth) == TakenPositions(Bindings(arm, ds, armIfs), truth)
  {
    var ds := decisions + {node.bit};
    var thenIfs, elseIfs := Wanting(ifs, node.bit, !node.notif), Wanting(ifs, node.bit, node.notif);
    TakenConcat(Bindings(node.thenArm, ds, thenIfs), Bindings(node.elseArm, ds, elseIfs), truth);
    if (node.bit in truth) != node.notif {
      LeftPathsSignNothing(node.elseArm, ds, elseIfs, truth);
      armIfs := thenIfs;
    } else {
      LeftPathsSignNothing(node.thenArm, ds, thenIfs, truth);
      armIfs := elseIfs;
    }
  }

  lemma {:induction false} WalkNodeSigns(node: Node, truth: Mask, w: WalkState, decisions: Mask, ifs: Mask)
    requires WellNestedNode(node, decisions) && ifs <= decisions && AgreeOn(truth, ifs, decisions)
    requires WalkNode(node, truth, w).Ok?
    ensures SignaturePositions(WalkNode(node, truth, w).value.items)
            == SignaturePositions(w.items) + TakenPositions(NodeBindings(node, decisions, ifs), truth)
    decreases node, 0
  {
    hide WalkNodes, Bindings, WellNested, AgreeOn, ArmsEffect, StackEffect, NodeHoldsKeyCheck, HoldsKeyCheck;
    if node.KeyCheck? {
      KeySigns(w.items, node.position, decisions, ifs, truth);
    } else if !node.Branch? {
      assert TakenPositions(NodeBindings(node, decisions, ifs), truth) == [];
    } else {
      var armIfs := BranchSigns(node, decisions, ifs, truth);
      var ds := decisions + {node.bit};
      if w.produced == 0 {
        SelectorSignsNothing(w.items, node.bit in truth);
        WalkNodesSign(NamedArm(node, truth), truth, w.(items := w.items + [Selector(node.bit in truth)]), ds, armIfs);
      } else if HoldsKeyCheck(node.thenArm) || HoldsKeyCheck(node.elseArm) {
        WalkNodesSign(NamedArm(node, truth), truth, w.(produced := w.produced - 1), ds, armIfs);
      } else {
        KeyFreeBindings(NamedArm(node, truth), ds, armIfs);
        NothingTaken(truth);
      }
    }
  }

  lemma {:induction false} WalkNodesSign(nodes: seq<Node>, truth: Mask, w: WalkState, decisions: Mask, ifs: Mask)
    requires WellNested(nodes, decisions) && ifs <= decisions && AgreeOn(truth, ifs, decisions)
    requires WalkNodes(nodes, truth, w).Ok?
    ensures SignaturePositions(WalkNodes(nodes, truth, w).value.items)
            == SignaturePositions(w.items) + TakenPositions(Bindings(nodes, decisions, ifs), truth)
    decreases nodes, 1
  {
    hide NodeBindings, WalkNode, WellNestedNode, AgreeOn, TakenPositions, SignaturePositions;
    if nodes == [] {
      assert TakenPositions([], truth) == [] by { NothingTaken(truth); }
    } else {
      WalkNodeSigns(nodes[0], truth, w, decisions, ifs);
      WalkNodesSign(nodes[1..], truth, WalkNode(nodes[0], truth, w).value, decisions, ifs);
      TakenConcat(NodeBindings(nodes[0], decisions, ifs), Bindings(nodes[1..], decisions, ifs), truth);
    }
  }

  // ----- The resolver's side -----

  /** The positions below `n` whose key the assignment reaches, ascending. */
  function MatchingPositions(keys: seq<R.BranchKey>, supplied: Mask, truth: Mask, n: nat): seq<nat>
    requires n <= |keys|
  {
    if n == 0 then []
    else MatchingPositions(keys, supplied, truth, n - 1) + if keys[n - 1].MatchesSelectors(supplied, truth) then [n - 1] else []
  }

  predicate DecidedWithin(st: R.ResolverState) {
    st.decisionMask <= st.selectorMask && forall p :: 0 <= p < |st.keys| ==> st.keys[p].decisionMask <= st.selectorMask
  }

  lemma {:induction false} ResolverStaysWithin(st: R.ResolverState, rest: seq<byte>)
    requires DecidedWithin(st) && R.ResolveRest(st, rest).Ok?
    ensures DecidedWithin(R.ResolveRest(st, rest).value)
    decreases |rest|
  {
    if rest != [] {
      var (next, width) := R.Step(st, rest).value;
      ResolverStaysWithin(next, rest[width..]);
    }
  }

  lemma {:induction false} TakenAreMatching(keys: seq<R.BranchKey>, bindings: seq<Binding>, supplied: Mask, truth: Mask, n: nat)
    requires n <= |keys| == |bindings|
    requires forall p :: 0 <= p < |keys| ==>
               bindings[p] == Binding(p, keys[p].decisionMask, keys[p].ifMask) && keys[p].decisionMask <= supplied
    ensures TakenPositions(bindings[..n], truth) == MatchingPositions(keys, supplied, truth, n)
  {
    if n > 0 {
      TakenAreMatching(keys, bindings, supplied, truth, n - 1);
      TakenConcat(bindings[..n - 1], [bindings[n - 1]], truth);
      assert bindings[..n] == bindings[..n - 1] + [bindings[n - 1]];
    }
  }

  /** The signatures a trace consumes are, in ascending order, exactly those of
      the keys whose selectors the assignment matches. */
  lemma TraceSignsTheMatchingKeys(script: seq<byte>, supplied: Mask, truth: Mask)
    requires Trace(script, supplied, truth).Ok? && R.Resolve(script).Ok?
    ensures var keys := R.Resolve(script).value.keys;
            SignaturePositions(Trace(script, supplied, truth).value) == MatchingPositions(keys, supplied, truth, |keys|)
  {
    hide P.ParseFrom, Bindings, WellNested, R.ResolveRest, MatchingPositions, SignaturePositions;
    ParsersAgree(script);
    TreeNumbersKeys(script);
    var (root, selectors) := P.Parse(script).value;
    var bindings, keys := Bindings(root, {}, {}), R.Resolve(script).value.keys;
    ResolverStaysWithin(R.START, script);
    WalkNodesSign(root, truth, WalkState(0, []), {}, {});
    assert SignaturePositions([]) == [] by { NothingSigned(); }
    TakenAreMatching(keys, bindings, supplied, truth, |keys|);
    assert bindings[..|keys|] == bindings;
  }

  lemma NothingSigned()
    ensures SignaturePositions([]) == []
  {
  }
}
