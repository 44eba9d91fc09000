/** A concrete stack machine for covenant scripts, and the proof that parsing a
    script into a tree keeps what the machine does.

    The machine reads the script bytes one element at a time, with a stack of
    open conditions, as a script engine does. It keeps apart the items the
    witness supplied from those the script made, and stops (`Stuck`) on any
    underflow and on any witness item used for something other than its
    purpose. */
module CovenantMachine {
  import opened Common
  import opened CovenantScript
  import opened CovenantParser
  import opened CovenantTrace
  import opened CovenantOpcodes
  import A = CovenantAgreement
  import ScriptElements

  /** What is being spent: the script, the assignment its witness must follow,
      how every condition the script computes itself would turn out, and which
      number stands on top of a stack for an opcode that asks. */
  datatype Spend = Spend(script: seq<byte>, truth: Mask, outcomes: Mask, numbers: seq<Item> -> nat)

  datatype Condition = Taken | NotTaken | Skipped

  /** The machine; the top of its stack comes first. */
  datatype Machine =
    | Running(stack: seq<Item>, conditions: seq<Condition>, branches: nat, spent: seq<WitnessItem>)
    | Stuck

  predicate Executing(conditions: seq<Condition>) {
    conditions == [] || conditions[|conditions| - 1] == Taken
  }

  /** Takes the condition of the branch `bit` off the stack: a witness selector,
      which must have the assigned value, or something the script computed. */
  function TakeCondition(spend: Spend, bit: nat, stack: seq<Item>): Option<(bool, seq<Item>, seq<WitnessItem>)> {
    if stack == [] then None
    else
      match stack[0]
      case Witness(Selector(supplied)) =>
        if supplied != (bit in spend.truth) then None else Some((supplied, stack[1..], [Selector(supplied)]))
      case Witness(Signature(_)) => None
      case _ => Some((bit in spend.outcomes, stack[1..], []))
  }

  function Settle(value: bool, notif: bool): Condition {
    if value != notif then Taken else NotTaken
  }

  function Flip(condition: Condition): Condition {
    match condition case Taken => NotTaken case NotTaken => Taken case Skipped => Skipped
  }

  function StepIf(spend: Spend, notif: bool, m: Machine): Machine
    requires m.Running?
  {
    if !Executing(m.conditions) then m.(conditions := m.conditions + [Skipped], branches := m.branches + 1)
    else
      match TakeCondition(spend, m.branches, m.stack)
      case None => Stuck
      case Some((value, stack, used)) =>
        Running(stack, m.conditions + [Settle(value, notif)], m.branches + 1, m.spent + used)
  }

  /** A signature check: a pushed key above the witness signature for exactly
      that key occurrence. */
  function StepCheck(spend: Spend, verify: bool, m: Machine): Machine
    requires m.Running?
  {
    var offsets := A.KeyOffsets(spend.script, 0);
    if |m.stack| >= 2 && m.stack[0].Pushed? && m.stack[1].Witness? && m.stack[1].item.Signature?
       && m.stack[1].item.position < |offsets| && offsets[m.stack[1].item.position] == m.stack[0].at
    then m.(stack := (if verify then [] else [Made]) + m.stack[2..], spent := m.spent + [m.stack[1].item])
    else Stuck
  }

  /** Executes the element at `at`. */
  function MachineStep(spend: Spend, at: nat, opcode: byte, m: Machine): Machine {
    if m.Stuck? then m
    else if opcode == OP_IF || opcode == OP_NOTIF then StepIf(spend, opcode == OP_NOTIF, m)
    else if opcode == OP_ELSE then
      if m.conditions == [] then Stuck
      else
        var top := |m.conditions| - 1;
        m.(conditions := m.conditions[..top] + [Flip(m.conditions[top])])
    else if opcode == OP_ENDIF then
      if m.conditions == [] then Stuck else m.(conditions := m.conditions[..|m.conditions| - 1])
    else if !Executing(m.conditions) then m
    else if IsDataPush(opcode) then m.(stack := [Pushed(at)] + m.stack)
    else if IsSmallPush(opcode) then m.(stack := [Made] + m.stack)
    else if opcode == OP_CHECKSIG || opcode == OP_CHECKSIGVERIFY then StepCheck(spend, opcode == OP_CHECKSIGVERIFY, m)
    else
      match Operate(opcode, spend.numbers(Erase(m.stack)), m.stack)
      case None => Stuck
      case Some(stack) => m.(stack := stack)
  }

  function RunFrom(spend: Spend, at: nat, m: Machine): Machine
    requires at <= |spend.script|
    decreases |spend.script| - at
  {
    if at == |spend.script| then m
    else
      match ScriptElements.ReadElement(spend.script, at)
      case None => Stuck
      case Some((element, next)) => RunFrom(spend, next, MachineStep(spend, at, element.opcode, m))
  }

  /** The stack on which `offered` waits, its first item on top. */
  function Waiting(offered: seq<WitnessItem>): seq<Item> {
    seq(|offered|, i requires 0 <= i < |offered| => Witness(offered[i]))
  }

  /** Runs the whole script on a witness. */
  function RunScript(spend: Spend, offered: seq<WitnessItem>): Machine {
    RunFrom(spend, 0, Running(Waiting(offered), [], 0, []))
  }

  // ----- Executing the tree -----

  datatype TreeState = Live(stack: seq<Item>, spent: seq<WitnessItem>) | Dead

  /** The value of a branch's condition; immaterial once the run is dead. */
  function ConditionOf(spend: Spend, bit: nat, t: TreeState): bool {
    t.Live? && TakeCondition(spend, bit, t.stack).Some? && TakeCondition(spend, bit, t.stack).value.0
  }

  function AfterCondition(spend: Spend, bit: nat, t: TreeState): TreeState {
    if t.Dead? then Dead
    else
      match TakeCondition(spend, bit, t.stack)
      case None => Dead
      case Some((_, stack, used)) => Live(stack, t.spent + used)
  }

  function ExecNode(spend: Spend, node: Node, t: TreeState): TreeState
    decreases node, 0
  {
    match node
    case Branch(bit, notif, thenArm, elseArm) =>
      var after := AfterCondition(spend, bit, t);
      if ConditionOf(spend, bit, t) != notif then ExecNodes(spend, thenArm, after) else ExecNodes(spend, elseArm, after)
    case _ => if t.Dead? then Dead else ExecSimple(spend, node, t)
  }

  function ExecSimple(spend: Spend, node: Node, t: TreeState): TreeState
    requires t.Live? && !node.Branch?
  {
    match node
    case Push => t.(stack := [Made] + t.stack)
    case KeyCheck(position, verify) =>
      if t.stack != [] && t.stack[0] == Witness(Signature(position))
      then Live((if verify then [] else [Made]) + t.stack[1..], t.spent + [Signature(position)])
      else Dead
    case Op(opcode) =>
      match Operate(opcode, spend.numbers(t.stack), t.stack)
      case None => Dead
      case Some(stack) => t.(stack := stack)
  }

  function ExecNodes(spend: Spend, nodes: seq<Node>, t: TreeState): TreeState
    decreases nodes, 1
  {
    if nodes == [] then t else ExecNodes(spend, nodes[1..], ExecNode(spend, nodes[0], t))
  }

  lemma {:induction false} ExecAppend(spend: Spend, nodes: seq<Node>, node: Node, t: TreeState)
    ensures ExecNodes(spend, nodes + [node], t) == ExecNode(spend, node, ExecNodes(spend, nodes, t))
  {
    var all := nodes + [node];
    if nodes == [] {
      assert all[1..] == [];
    } else {
      ExecAppend(spend, nodes[1..], node, ExecNode(spend, nodes[0], t));
      assert all[1..] == nodes[1..] + [node] && all[0] == nodes[0];
    }
  }

  // ----- A tree still being read -----

  datatype Progress = Progress(t: TreeState, conditions: seq<Condition>)

  /** Adds one open branch to the execution of everything above it. */
  function EnterOpen(spend: Spend, above: Progress, top: OpenBranch): Progress {
    if !Executing(above.conditions) then above.(conditions := above.conditions + [Skipped])
    else
      var condition := Settle(ConditionOf(spend, top.bit, above.t), top.notif);
      var t1 := AfterCondition(spend, top.bit, above.t);
      var t2 := if condition == Taken then ExecNodes(spend, top.thenArm, t1) else t1;
      match top.elseArm
      case None => Progress(t2, above.conditions + [condition])
      case Some(arm) =>
        Progress(if condition == Taken then t2 else ExecNodes(spend, arm, t2), above.conditions + [Flip(condition)])
  }

  /** The execution of all that the parser has read so far. */
  function Sofar(spend: Spend, root: seq<Node>, open: seq<OpenBranch>, start: TreeState): Progress {
    if open == [] then Progress(ExecNodes(spend, root, start), [])
    else EnterOpen(spend, Sofar(spend, root, open[..|open| - 1], start), open[|open| - 1])
  }

  lemma EmitEntered(spend: Spend, above: Progress, top: OpenBranch, node: Node)
    ensures var before, after := EnterOpen(spend, above, top), EnterOpen(spend, above, AppendTo(top, node));
            after == if Executing(before.conditions) then before.(t := ExecNode(spend, node, before.t)) else before
  {
    var t1 := AfterCondition(spend, top.bit, above.t);
    match top.elseArm
    case None => ExecAppend(spend, top.thenArm, node, t1);
    case Some(arm) => ExecAppend(spend, arm, node, t1);
  }

  /** A node appended to the list being read runs exactly when that list does. */
  lemma EmitRuns(spend: Spend, st: ParseState, node: Node, start: TreeState)
    ensures var before := Sofar(spend, st.root, st.open, start);
            var next := Emit(st, node);
            Sofar(spend, next.root, next.open, start)
            == if Executing(before.conditions) then before.(t := ExecNode(spend, node, before.t)) else before
  {
    if st.open == [] {
      ExecAppend(spend, st.root, node, start);
    } else {
      var below, top := st.open[..|st.open| - 1], st.open[|st.open| - 1];
      var next := Emit(st, node).open;
      assert next[..|next| - 1] == below && next[|next| - 1] == AppendTo(top, node);
      EmitEntered(spend, Sofar(spend, st.root, below, start), top, node);
    }
  }

  lemma ClosedRuns(spend: Spend, above: Progress, top: OpenBranch)
    ensures var before := EnterOpen(spend, above, top);
            && before.conditions != [] && before.conditions[..|before.conditions| - 1] == above.conditions
            && before.t == if Executing(above.conditions) then ExecNode(spend, Closed(top), above.t) else above.t
  {
  }

  lemma LeaveRuns(spend: Spend, st: ParseState, start: TreeState)
    requires st.open != []
    ensures var before := Sofar(spend, st.root, st.open, start);
            var next := LeaveBranch(st).value;
            && before.conditions != []
            && Sofar(spend, next.root, next.open, start)
               == Progress(before.t, before.conditions[..|before.conditions| - 1])
  {
    var below, top := st.open[..|st.open| - 1], st.open[|st.open| - 1];
    EmitRuns(spend, st.(open := below), Closed(top), start);
    ClosedRuns(spend, Sofar(spend, st.root, below, start), top);
  }

  lemma ElseRuns(spend: Spend, st: ParseState, start: TreeState)
    requires EnterElse(st).Ok?
    ensures var before := Sofar(spend, st.root, st.open, start);
            var next := EnterElse(st).value;
            var top := |before.conditions| - 1;
            && before.conditions != []
            && Sofar(spend, next.root, next.open, start)
               == Progress(before.t, before.conditions[..top] + [Flip(before.conditions[top])])
  {
    var below, top := st.open[..|st.open| - 1], st.open[|st.open| - 1];
    var next := EnterElse(st).value.open;
    assert next[..|next| - 1] == below && next[|next| - 1] == top.(elseArm := Some([]));
    var above := Sofar(spend, st.root, below, start);
    assert forall t :: ExecNodes(spend, [], t) == t;
  }

  lemma EnterRuns(spend: Spend, st: ParseState, opcode: byte, start: TreeState)
    requires EnterBranch(st, opcode).Ok?
    ensures var before := Sofar(spend, st.root, st.open, start);
            var next := EnterBranch(st, opcode).value;
            var notif := opcode == OP_NOTIF;
            Sofar(spend, next.root, next.open, start)
            == if !Executing(before.conditions) then Progress(before.t, before.conditions + [Skipped])
               else Progress(AfterCondition(spend, st.nextBranch, before.t),
                             before.conditions + [Settle(ConditionOf(spend, st.nextBranch, before.t), notif)])
  {
    var next := EnterBranch(st, opcode).value.open;
    assert next[..|next| - 1] == st.open;
    assert forall t :: ExecNodes(spend, [], t) == t;
  }

  // ----- The machine and the tree move together -----

  /** No key waits for a check: its own check always consumes it at once. */
  ghost predicate NoKeyWaits(spend: Spend, stack: seq<Item>) {
    forall i :: 0 <= i < |stack| && stack[i].Pushed? ==> stack[i].at !in A.KeyOffsets(spend.script, 0)
  }

  /** The machine has done exactly what the tree read so far does. */
  ghost predicate InStep(spend: Spend, m: Machine, progress: Progress, branches: nat) {
    match m
    case Stuck => progress.t.Dead?
    case Running(stack, conditions, count, spent) =>
      && progress == Progress(Live(Erase(stack), spent), conditions)
      && NoKeyWaits(spend, stack)
      && count == branches
  }

  lemma ConditionErased(spend: Spend, bit: nat, stack: seq<Item>)
    ensures match TakeCondition(spend, bit, stack)
            case None => TakeCondition(spend, bit, Erase(stack)).None?
            case Some((value, rest, used)) => TakeCondition(spend, bit, Erase(stack)) == Some((value, Erase(rest), used))
  {
    if stack != [] { assert Erase(stack)[1..] == Erase(stack[1..]); }
  }

  lemma IfInStep(spend: Spend, st: ParseState, opcode: byte, start: TreeState, m: Machine)
    requires InStep(spend, m, Sofar(spend, st.root, st.open, start), st.nextBranch) && EnterBranch(st, opcode).Ok?
    requires opcode in {OP_IF, OP_NOTIF}
    ensures var next := EnterBranch(st, opcode).value;
            forall at :: InStep(spend, MachineStep(spend, at, opcode, m), Sofar(spend, next.root, next.open, start), next.nextBranch)
  {
    hide Sofar;
    EnterRuns(spend, st, opcode, start);
    if m.Running? { ConditionErased(spend, st.nextBranch, m.stack); }
  }

  lemma ElseInStep(spend: Spend, st: ParseState, start: TreeState, m: Machine)
    requires InStep(spend, m, Sofar(spend, st.root, st.open, start), st.nextBranch) && EnterElse(st).Ok?
    ensures var next := EnterElse(st).value;
            forall at :: InStep(spend, MachineStep(spend, at, OP_ELSE, m), Sofar(spend, next.root, next.open, start), next.nextBranch)
  {
    hide Sofar;
    ElseRuns(spend, st, start);
  }

  lemma EndifInStep(spend: Spend, st: ParseState, start: TreeState, m: Machine)
    requires InStep(spend, m, Sofar(spend, st.root, st.open, start), st.nextBranch) && LeaveBranch(st).Ok?
    ensures var next := LeaveBranch(st).value;
            forall at :: InStep(spend, MachineStep(spend, at, OP_ENDIF, m), Sofar(spend, next.root, next.open, start), next.nextBranch)
  {
    hide Sofar, Emit;
    LeaveRuns(spend, st, start);
    A.EmitKeepsFrames(st.(open := st.open[..|st.open| - 1]), Closed(st.open[|st.open| - 1]));
  }

  lemma StillNoKeyWaits(spend: Spend, stack: seq<Item>, rest: seq<Item>)
    requires NoKeyWaits(spend, stack) && forall i :: 0 <= i < |rest| ==> rest[i] == Made || rest[i] in stack
    ensures NoKeyWaits(spend, rest)
  {
    hide A.KeyOffsets;
  }

  /** A signature check that no pushed key precedes fails in both. */
  lemma LoneCheckFails(spend: Spend, opcode: byte, m: Machine)
    requires m.Running? && NoKeyWaits(spend, m.stack) && opcode in {OP_CHECKSIG, OP_CHECKSIGVERIFY}
    ensures StepCheck(spend, opcode == OP_CHECKSIGVERIFY, m) == Stuck
    ensures forall number, stack :: Operate(opcode, number, stack) == None
  {
    hide A.KeyOffsets;
  }

  /** What a push or plain opcode does to a running machine it does to the tree. */
  lemma SimpleInStep(spend: Spend, st: ParseState, node: Node, start: TreeState, m: Machine, at: nat, opcode: byte)
    requires InStep(spend, m, Sofar(spend, st.root, st.open, start), st.nextBranch)
    requires opcode !in {OP_IF, OP_NOTIF, OP_ELSE, OP_ENDIF}
    requires if IsDataPush(opcode) || IsSmallPush(opcode) then node == Push else node == Op(opcode)
    requires at !in A.KeyOffsets(spend.script, 0)
    ensures var next := Emit(st, node);
            InStep(spend, MachineStep(spend, at, opcode, m), Sofar(spend, next.root, next.open, start), next.nextBranch)
  {
    hide Sofar, Emit, A.KeyOffsets, Operate;
    EmitRuns(spend, st, node, start);
    A.EmitKeepsFrames(st, node);
    if m.Running? && Executing(m.conditions) {
      if node.Op? {
        var number := spend.numbers(Erase(m.stack));
        OperatedErased(opcode, number, m.stack);
        OperatedItems(opcode, number, m.stack);
        if opcode in {OP_CHECKSIG, OP_CHECKSIGVERIFY} { LoneCheckFails(spend, opcode, m); }
        var r := Operate(opcode, number, m.stack);
        if r.Some? { StillNoKeyWaits(spend, m.stack, r.value); }
      } else {
        assert Erase([Pushed(at)] + m.stack) == [Made] + Erase(m.stack);
        assert Erase([Made] + m.stack) == [Made] + Erase(m.stack);
      }
    }
  }

  lemma AscendCons(at: nat, next: nat, rest: seq<nat>)
    requires at < next && forall p :: 0 <= p < |rest| ==> next <= rest[p]
    requires forall p, q :: 0 <= p < q < |rest| ==> rest[p] < rest[q]
    ensures var offsets := [at] + rest;
            && (forall p :: 0 <= p < |offsets| ==> at <= offsets[p])
            && (forall p, q :: 0 <= p < q < |offsets| ==> offsets[p] < offsets[q])
  {
  }

  lemma {:induction false} OffsetsAscend(script: seq<byte>, at: nat)
    requires at <= |script|
    ensures forall p :: 0 <= p < |A.KeyOffsets(script, at)| ==> at <= A.KeyOffsets(script, at)[p]
    ensures forall p, q :: 0 <= p < q < |A.KeyOffsets(script, at)| ==>
              A.KeyOffsets(script, at)[p] < A.KeyOffsets(script, at)[q]
    decreases |script| - at
  {
    var read := ScriptElements.ReadElement(script, at);
    if read.None? {
      assert A.KeyOffsets(script, at) == [];
    } else {
      hide A.KeyOffsets;
      A.OffsetsUnfold(script, at);
      OffsetsAscend(script, read.value.1);
      AscendCons(at, read.value.1, A.KeyOffsets(script, read.value.1));
    }
  }

  /** A key check is one node and two elements: the push, then the check, which
      accepts no signature but the one made for the key pushed here. */
  lemma KeyInStep(spend: Spend, st: ParseState, start: TreeState, m: Machine, at: nat)
    requires InStep(spend, m, Sofar(spend, st.root, st.open, start), st.nextBranch)
    requires at + 33 < |spend.script| && spend.script[at + 33] in {OP_CHECKSIG, OP_CHECKSIGVERIFY}
    requires var offsets := A.KeyOffsets(spend.script, 0); st.nextKey < |offsets| && offsets[st.nextKey] == at
    ensures var verify := spend.script[at + 33] == OP_CHECKSIGVERIFY;
            var next := Emit(st, KeyCheck(st.nextKey, verify));
            var pushed := MachineStep(spend, at, OP_DATA_32, m);
            InStep(spend, MachineStep(spend, at + 33, spend.script[at + 33], pushed),
                   Sofar(spend, next.root, next.open, start), next.nextBranch)
  {
    hide Sofar, Emit, A.KeyOffsets;
    var node := KeyCheck(st.nextKey, spend.script[at + 33] == OP_CHECKSIGVERIFY);
    EmitRuns(spend, st, node, start);
    A.EmitKeepsFrames(st, node);
    OffsetsAscend(spend.script, 0);
    if m.Running? && Executing(m.conditions) && m.stack != [] {
      var pushed := [Pushed(at)] + m.stack;
      assert pushed[2..] == m.stack[1..] && pushed[1] == m.stack[0];
      assert Erase([Made] + m.stack[1..]) == [Made] + Erase(m.stack)[1..];
      assert Erase([] + m.stack[1..]) == [] + Erase(m.stack)[1..];
    }
  }

  lemma NotAKey(script: seq<byte>, at: nat)
    requires at < |script| && (script[at] != OP_DATA_32 || !IsKeyCheck(script, at))
    ensures at !in A.KeyOffsets(script, 0)
  {
  }

  /** One element that is not a checked key: the machine and the tree move
      together to the same next offset. */
  lemma ElementInStep(spend: Spend, st: ParseState, start: TreeState, m: Machine, at: nat)
    requires InStep(spend, m, Sofar(spend, st.root, st.open, start), st.nextBranch)
    requires at < |spend.script| && ParseElement(spend.script, st, at).Ok?
    requires spend.script[at] != OP_DATA_32 || !IsKeyCheck(spend.script, at)
    ensures var (next, end) := ParseElement(spend.script, st, at).value;
            var read := ScriptElements.ReadElement(spend.script, at);
            && read.Some? && read.value.1 == NextPosition(at, end)
            && next.nextKey == st.nextKey
            && InStep(spend, MachineStep(spend, at, read.value.0.opcode, m),
                      Sofar(spend, next.root, next.open, start), next.nextBranch)
  {
    hide InStep, Sofar, Emit, MachineStep, EnterBranch, EnterElse, LeaveBranch, A.KeyOffsets;
    var opcode := spend.script[at];
    NotAKey(spend.script, at);
    if opcode == OP_IF || opcode == OP_NOTIF {
      IfInStep(spend, st, opcode, start, m);
      assert EnterBranch(st, opcode).value.nextKey == st.nextKey by { EnterKeepsKeys(st, opcode); }
    } else if opcode == OP_ELSE {
      ElseInStep(spend, st, start, m);
      assert EnterElse(st).value.nextKey == st.nextKey by { ElseKeepsKeys(st); }
    } else if opcode == OP_ENDIF {
      EndifInStep(spend, st, start, m);
      assert LeaveBranch(st).value.nextKey == st.nextKey by { LeaveKeepsKeys(st); }
    } else {
      var node := if IsDataPush(opcode) || IsSmallPush(opcode) then Push else Op(opcode);
      SimpleInStep(spend, st, node, start, m, at, opcode);
      A.EmitKeepsFrames(st, node);
    }
  }

  lemma EnterKeepsKeys(st: ParseState, opcode: byte)
    ensures EnterBranch(st, opcode).Ok? ==> EnterBranch(st, opcode).value.nextKey == st.nextKey
  {
  }

  lemma ElseKeepsKeys(st: ParseState)
    ensures EnterElse(st).Ok? ==> EnterElse(st).value.nextKey == st.nextKey
  {
  }

  lemma LeaveKeepsKeys(st: ParseState)
    ensures LeaveBranch(st).Ok? ==> LeaveBranch(st).value.nextKey == st.nextKey
  {
  }

  lemma KeyParses(script: seq<byte>, st: ParseState, at: nat)
    requires at < |script| && script[at] == OP_DATA_32 && IsKeyCheck(script, at) && ParseElement(script, st, at).Ok?
    ensures var (next, end) := ParseElement(script, st, at).value;
            && next == Emit(st, KeyCheck(st.nextKey, script[at + 33] == OP_CHECKSIGVERIFY)).(nextKey := st.nextKey + 1)
            && NextPosition(at, end) == at + 34
    ensures A.KeyOffsets(script, at) == [at] + A.KeyOffsets(script, at + 34)
  {
    hide A.KeyOffsets;
    A.OffsetsUnfold(script, at);
    A.OffsetsUnfold(script, at + 33);
  }

  /** The keys parsed so far are the first offsets; the rest lie ahead. */
  ghost predicate KeysAhead(script: seq<byte>, st: ParseState, at: nat)
    requires at <= |script|
  {
    var offsets := A.KeyOffsets(script, 0);
    st.nextKey <= |offsets| && offsets[st.nextKey..] == A.KeyOffsets(script, at)
  }

  lemma NextKeyAhead(script: seq<byte>, st: ParseState, at: nat, next: ParseState)
    requires at + 34 <= |script| && KeysAhead(script, st, at)
    requires A.KeyOffsets(script, at) == [at] + A.KeyOffsets(script, at + 34) && next.nextKey == st.nextKey + 1
    ensures st.nextKey < |A.KeyOffsets(script, 0)| && A.KeyOffsets(script, 0)[st.nextKey] == at
    ensures KeysAhead(script, next, at + 34)
  {
    hide A.KeyOffsets;
    var offsets := A.KeyOffsets(script, 0);
    assert offsets[st.nextKey..][0] == at && offsets[st.nextKey..][1..] == offsets[st.nextKey + 1..];
  }

  lemma KeysStillAhead(script: seq<byte>, st: ParseState, at: nat, next: ParseState, end: nat)
    requires at < |script| && end <= |script| && KeysAhead(script, st, at) && next.nextKey == st.nextKey
    requires var read := ScriptElements.ReadElement(script, at); read.Some? && read.value.1 == end
    requires script[at] != OP_DATA_32 || !IsKeyCheck(script, at)
    ensures KeysAhead(script, next, end)
  {
  }

  lemma {:induction false} RunsInStep(spend: Spend, st: ParseState, start: TreeState, m: Machine, at: nat)
    requires at <= |spend.script| && ParseFrom(spend.script, st, at).Ok? && KeysAhead(spend.script, st, at)
    requires InStep(spend, m, Sofar(spend, st.root, st.open, start), st.nextBranch)
    ensures var end := ParseFrom(spend.script, st, at).value;
            InStep(spend, RunFrom(spend, at, m), Sofar(spend, end.root, end.open, start), end.nextBranch)
    decreases |spend.script| - at
  {
    hide InStep, Sofar, Emit, MachineStep, ParseElement, A.KeyOffsets, KeysAhead;
    var script := spend.script;
    if at < |script| {
      var (next, end) := ParseElement(script, st, at).value;
      if script[at] == OP_DATA_32 && IsKeyCheck(script, at) {
        KeyParses(script, st, at);
        NextKeyAhead(script, st, at, next);
        KeyInStep(spend, st, start, m, at);
        RunsInStep(spend, next, start, TwoElements(spend, at, m), at + 34);
      } else {
        ElementInStep(spend, st, start, m, at);
        KeysStillAhead(script, st, at, next, NextPosition(at, end));
        RunsInStep(spend, next, start, MachineStep(spend, at, script[at], m), NextPosition(at, end));
      }
    }
  }

  /** The machine after the key push at `at` and the check behind it. */
  function TwoElements(spend: Spend, at: nat, m: Machine): (end: Machine)
    requires at < |spend.script| && spend.script[at] == OP_DATA_32 && IsKeyCheck(spend.script, at)
    ensures RunFrom(spend, at, m) == RunFrom(spend, at + 34, end)
  {
    MachineStep(spend, at + 33, spend.script[at + 33], MachineStep(spend, at, OP_DATA_32, m))
  }

  /** Parsing keeps the meaning of a script: on every witness, under every
      outcome of the computed conditions, the machine that reads the bytes and
      the execution of the parsed tree stop short together, or end with the same
      stack, having spent the same witness items, outside every condition. */
  lemma ParsingKeepsExecution(spend: Spend, offered: seq<WitnessItem>)
    requires Parse(spend.script).Ok?
    ensures match ExecNodes(spend, Parse(spend.script).value.0, Live(Waiting(offered), []))
            case Dead => RunScript(spend, offered) == Stuck
            case Live(stack, spent) =>
              && RunScript(spend, offered).Running?
              && Erase(RunScript(spend, offered).stack) == stack
              && RunScript(spend, offered).spent == spent
              && RunScript(spend, offered).conditions == []
  {
    hide ExecNodes, ParseFrom, RunFrom, A.KeyOffsets;
    var start, m := Live(Waiting(offered), []), Running(Waiting(offered), [], 0, []);
    assert Erase(m.stack) == m.stack;
    assert ExecNodes(spend, [], start) == start by { NothingRuns(spend, start); }
    RunsInStep(spend, START, start, m, 0);
  }

  lemma NothingRuns(spend: Spend, t: TreeState)
    ensures ExecNodes(spend, [], t) == t
  {
  }
}
