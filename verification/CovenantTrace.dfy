/** The witness tracer of src/contract/covenant/execution.rs: walks the parsed
    program along one selector assignment and lists what it consumes. */
module CovenantTrace {
  import opened Common
  import opened CovenantScript
  import opened CovenantParser

  /** One witness stack item the taken path consumes. */
  datatype WitnessItem = Selector(supplied: bool) | Signature(position: nat)

  /** Opcodes that need more from a witness than selectors and signatures. */
  const SIGNATURE_CHECKS: set<byte> := {0xab, OP_CHECKSIG, OP_CHECKSIGVERIFY, 0xae, 0xaf, 0xd7}

  /** How many items an opcode takes off the stack and puts on it; none when that
      depends on the items. */
  function StackEffect(opcode: byte): Option<(nat, nat)> {
    if opcode == 0x61 then Some((0, 0))
    else if opcode in {0x69, 0x75, 0xb0, 0xb1} then Some((1, 0))
    else if opcode == 0x6d then Some((2, 0))
    else if opcode == 0x6e then Some((2, 4))
    else if opcode in {0x76, 0x82} then Some((1, 2))
    else if opcode == 0x77 then Some((2, 1))
    else if opcode in {0x78, 0x7d} then Some((2, 3))
    else if opcode == 0x7b then Some((3, 3))
    else if opcode == 0x7c then Some((2, 2))
    else if opcode in {0x7f, 0xa5, 0xbc} then Some((3, 1))
    else if opcode in {0x88, 0x9d} then Some((2, 0))
    else if opcode in {0x8b, 0x8c} || 0x8f <= opcode <= 0x92 || opcode in {0xa8, 0xaa} then Some((1, 1))
    else if opcode in {0x7e, 0x87, 0x93, 0x94} || 0x9a <= opcode <= 0x9c || 0x9e <= opcode <= 0xa4 then Some((2, 1))
    else if opcode in {0xb3, 0xb4, 0xb9} then Some((0, 1))
    else if opcode in {0xbe, 0xbf, 0xc2, 0xc3, 0xc9, 0xcb, 0xcf, 0xd0, 0xd2, 0xd5} then Some((1, 1))
    else if opcode == 0xd3 then Some((2, 1))
    else None
  }

  function OpcodeError(opcode: byte): ExecutionError {
    if opcode in SIGNATURE_CHECKS then UnsupportedSignatureCheck else UnsupportedOpcode
  }

  function Max(a: int, b: int): int {
    if a >= b then a else b
  }

  // ----- Key-free blocks -----

  /** Joins what the arms need and change; arms that end at different heights have
      no joint effect. */
  function JoinArms(thenEffect: Result<(nat, int), ExecutionError>, elseEffect: Result<(nat, int), ExecutionError>)
    : Result<(nat, int), ExecutionError>
  {
    var (thenNeed, thenDelta) :- thenEffect;
    var (elseNeed, elseDelta) :- elseEffect;
    if thenDelta != elseDelta then Err(DataDependentBranch)
    else Ok((Max(thenNeed, elseNeed), thenDelta))
  }

  /** Moves the running depth and need over one node. */
  function PureStep(node: Node, depth: int, need: nat): (r: Result<(int, nat), ExecutionError>)
    requires need + depth >= 0
    ensures r.Ok? ==> r.value.1 >= need && r.value.0 + r.value.1 >= 0
    decreases node, 0
  {
    match node
    case Push => Ok((depth + 1, need))
    case KeyCheck(_, _) => Err(DataDependentBranch)
    case Op(opcode) =>
      (match StackEffect(opcode)
       case None => Err(OpcodeError(opcode))
       case Some((pops, pushes)) => Ok((depth - pops + pushes, Max(need, -(depth - pops)))))
    case Branch(_, _, thenArm, elseArm) =>
      // The arms start one item lower, where the condition was.
      var (armsNeed, delta) :- JoinArms(PureEffect(thenArm), PureEffect(elseArm));
      Ok((depth - 1 + delta, Max(need, armsNeed - (depth - 1))))
  }

  function PureFrom(nodes: seq<Node>, depth: int, need: nat): (r: Result<(nat, int), ExecutionError>)
    requires need + depth >= 0
    ensures r.Ok? ==> r.value.0 >= need && r.value.0 + r.value.1 >= 0
    decreases nodes, 1
  {
    if nodes == [] then Ok((need, depth))
    else
      var (depth', need') :- PureStep(nodes[0], depth, need);
      PureFrom(nodes[1..], depth', need')
  }

  /** The height a block without keys must start from, and how far it moves. */
  function PureEffect(nodes: seq<Node>): (r: Result<(nat, int), ExecutionError>)
    ensures r.Ok? ==> r.value.0 + r.value.1 >= 0
    decreases nodes, 2
  {
    PureFrom(nodes, 0, 0)
  }

  function ArmsEffect(thenArm: seq<Node>, elseArm: seq<Node>): Result<(nat, int), ExecutionError> {
    JoinArms(PureEffect(thenArm), PureEffect(elseArm))
  }

  predicate NodeHoldsKeyCheck(node: Node)
    decreases node, 0
  {
    match node
    case KeyCheck(_, _) => true
    case Branch(_, _, thenArm, elseArm) => HoldsKeyCheck(thenArm) || HoldsKeyCheck(elseArm)
    case _ => false
  }

  predicate HoldsKeyCheck(nodes: seq<Node>)
    decreases nodes, 1
  {
    nodes != [] && (NodeHoldsKeyCheck(nodes[0]) || HoldsKeyCheck(nodes[1..]))
  }

  // ----- The walk -----

  /** Script-made items on top of the stack, and the witness items consumed. */
  datatype WalkState = WalkState(produced: nat, items: seq<WitnessItem>)

  function Pop(w: WalkState, count: nat): Result<WalkState, ExecutionError> {
    if w.produced < count then Err(WitnessDataRequired) else Ok(w.(produced := w.produced - count))
  }

  /** The arm that the assignment names. */
  function NamedArm(node: Node, truth: Mask): (arm: seq<Node>)
    requires node.Branch?
    ensures arm == node.thenArm || arm == node.elseArm
  {
    if (node.bit in truth) != node.notif then node.thenArm else node.elseArm
  }

  function WalkNode(node: Node, truth: Mask, w: WalkState): Result<WalkState, ExecutionError>
    decreases node, 0
  {
    match node
    case Push => Ok(w.(produced := w.produced + 1))
    case KeyCheck(position, verify) =>
      if w.produced != 0 then Err(UnsupportedSignatureCheck)
      else Ok(WalkState(if verify then 0 else 1, w.items + [Signature(position)]))
    case Op(opcode) =>
      (match StackEffect(opcode)
       case None => Err(OpcodeError(opcode))
       case Some((pops, pushes)) =>
         var popped :- Pop(w, pops);
         Ok(popped.(produced := popped.produced + pushes)))
    case Branch(bit, notif, thenArm, elseArm) =>
      if w.produced == 0 then
        WalkNodes(NamedArm(node, truth), truth, w.(items := w.items + [Selector(bit in truth)]))
      else
        var popped :- Pop(w, 1);
        if HoldsKeyCheck(thenArm) || HoldsKeyCheck(elseArm) then WalkNodes(NamedArm(node, truth), truth, popped)
        else
          var (need, delta) :- ArmsEffect(thenArm, elseArm);
          if popped.produced < need then Err(WitnessDataRequired)
          else Ok(popped.(produced := popped.produced + delta))
  }

  function WalkNodes(nodes: seq<Node>, truth: Mask, w: WalkState): Result<WalkState, ExecutionError>
    decreases nodes, 1
  {
    if nodes == [] then Ok(w)
    else
      var next :- WalkNode(nodes[0], truth, w);
      WalkNodes(nodes[1..], truth, next)
  }

  /** The witness that an assignment of every selector calls for, first item
      first. */
  function Trace(script: seq<byte>, suppliedMask: Mask, suppliedTrueMask: Mask): Result<seq<WitnessItem>, ExecutionError> {
    var (program, selectorMask) :- Parse(script);
    if suppliedMask != selectorMask || !(suppliedTrueMask <= suppliedMask) then Err(IncompleteSelectors)
    else
      var w :- WalkNodes(program, suppliedTrueMask, WalkState(0, []));
      Ok(w.items)
  }

  /** One node of that loop. */
  method ComputePureStep(node: Node, depth: int, need: nat) returns (r: Result<(int, nat), ExecutionError>)
    requires need + depth >= 0
    ensures r == PureStep(node, depth, need)
    decreases node, 0
  {
    match node {
      case Push => return Ok((depth + 1, need));
      case KeyCheck(_, _) => return Err(DataDependentBranch);
      case Op(opcode) =>
        var effect := StackEffect(opcode);
        if effect.None? { return Err(OpcodeError(opcode)); }
        var low := depth - effect.value.0;
        return Ok((low + effect.value.1, Max(need, -low)));
      case Branch(_, _, thenArm, elseArm) =>
        var low := depth - 1;
        var thenEffect := ComputePureEffect(thenArm);
        var elseEffect := ComputePureEffect(elseArm);
        var joined := JoinArms(thenEffect, elseEffect);
        if joined.Err? { return Err(joined.error); }
        return Ok((low + joined.value.1, Max(need, joined.value.0 - low)));
    }
  }

  /** `pure_effect` as the source loops over it. */
  method ComputePureEffect(nodes: seq<Node>) returns (r: Result<(nat, int), ExecutionError>)
    ensures r == PureEffect(nodes)
    decreases nodes, 1
  {
    assert nodes[0..] == nodes;
    hide PureFrom, PureStep;
    var depth: int := 0;
    var need: int := 0;
    for i := 0 to |nodes|
      invariant 0 <= need && need + depth >= 0
      invariant PureEffect(nodes) == PureFrom(nodes[i..], depth, need)
    {
      PureFromAt(nodes, i, depth, need);
      var step := ComputePureStep(nodes[i], depth, need);
      if step.Err? { return Err(step.error); }
      depth, need := step.value.0, step.value.1;
    }
    PureFromEnd(nodes, depth, need);
    return Ok((need, depth));
  }

  lemma PureFromAt(nodes: seq<Node>, i: nat, depth: int, need: nat)
    requires i < |nodes| && need + depth >= 0
    ensures PureFrom(nodes[i..], depth, need)
            == match PureStep(nodes[i], depth, need)
               case Err(e) => Err(e)
               case Ok((d, n)) => PureFrom(nodes[i + 1..], d, n)
  {
    hide PureStep;
    assert nodes[i..][0] == nodes[i] && nodes[i..][1..] == nodes[i + 1..];
  }

  lemma PureFromEnd(nodes: seq<Node>, depth: int, need: nat)
    requires need + depth >= 0
    ensures PureFrom(nodes[|nodes|..], depth, need) == Ok((need, depth))
  {
  }

  /** The walk as the source writes it: one struct updated in place. */
  class Walk {
    const suppliedTrueMask: Mask
    var produced: nat
    var items: seq<WitnessItem>

    constructor (suppliedTrueMask: Mask)
      ensures this.suppliedTrueMask == suppliedTrueMask && State() == WalkState(0, [])
    {
      this.suppliedTrueMask := suppliedTrueMask;
      produced, items := 0, [];
    }

    function State(): WalkState
      reads this
    {
      WalkState(produced, items)
    }

    method PopInPlace(count: nat) returns (r: Result<(), ExecutionError>)
      modifies this
      ensures match Pop(old(State()), count)
              case Ok(w) => r.Ok? && State() == w
              case Err(e) => r == Err(e)
    {
      if produced < count { return Err(WitnessDataRequired); }
      produced := produced - count;
      return Ok(());
    }

    method Run(nodes: seq<Node>) returns (r: Result<(), ExecutionError>)
      modifies this
      ensures match WalkNodes(nodes, suppliedTrueMask, old(State()))
              case Ok(w) => r.Ok? && State() == w
              case Err(e) => r == Err(e)
      decreases nodes, 1
    {
      for i := 0 to |nodes|
        invariant WalkNodes(nodes, suppliedTrueMask, old(State())) == WalkNodes(nodes[i..], suppliedTrueMask, State())
      {
        assert nodes[i..][0] == nodes[i] && nodes[i..][1..] == nodes[i + 1..];
        r := Step(nodes[i]);
        if r.Err? { return; }
      }
      return Ok(());
    }

    method Step(node: Node) returns (r: Result<(), ExecutionError>)
      modifies this
      ensures match WalkNode(node, suppliedTrueMask, old(State()))
              case Ok(w) => r.Ok? && State() == w
              case Err(e) => r == Err(e)
      decreases node, 0
    {
      match node {
        case Push => produced := produced + 1;
        case KeyCheck(position, verify) =>
          if produced != 0 { return Err(UnsupportedSignatureCheck); }
          items := items + [Signature(position)];
          produced := if verify then 0 else 1;
        case Op(opcode) =>
          var effect := StackEffect(opcode);
          if effect.None? { return Err(OpcodeError(opcode)); }
          r := PopInPlace(effect.value.0);
          if r.Err? { return; }
          produced := produced + effect.value.1;
        case Branch(bit, notif, thenArm, elseArm) =>
          if produced == 0 {
            items := items + [Selector(bit in suppliedTrueMask)];
            r := Run(NamedArm(node, suppliedTrueMask));
            return;
          }
          r := PopInPlace(1);
          if r.Err? { return; }
          if HoldsKeyCheck(thenArm) || HoldsKeyCheck(elseArm) {
            r := Run(NamedArm(node, suppliedTrueMask));
            return;
          }
          var thenEffect := ComputePureEffect(thenArm);
          var elseEffect := ComputePureEffect(elseArm);
          var joined := JoinArms(thenEffect, elseEffect);
          if joined.Err? { return Err(joined.error); }
          if produced < joined.value.0 { return Err(WitnessDataRequired); }
          produced := produced + joined.value.1;
      }
      return Ok(());
    }
  }

  method TraceWitness(script: seq<byte>, suppliedMask: Mask, suppliedTrueMask: Mask)
    returns (r: Result<seq<WitnessItem>, ExecutionError>)
    ensures r == Trace(script, suppliedMask, suppliedTrueMask)
  {
    var parser := new Parser(script);
    var parsed := parser.ParseInPlace();
    if parsed.Err? { return Err(parsed.error); }
    var (program, selectorMask) := parsed.value;
    if suppliedMask != selectorMask || !(suppliedTrueMask <= suppliedMask) { return Err(IncompleteSelectors); }
    var walk := new Walk(suppliedTrueMask);
    var done := walk.Run(program);
    if done.Err? { return Err(done.error); }
    return Ok(walk.items);
  }
}
