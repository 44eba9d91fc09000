/** The tree parser of src/contract/covenant/execution.rs. */
module CovenantParser {
  import opened Common
  import opened CovenantScript
  import ScriptElements

  /** An IF/NOTIF whose ENDIF has not been read yet. */
  datatype OpenBranch = OpenBranch(bit: Selector, notif: bool, thenArm: seq<Node>, elseArm: Option<seq<Node>>)

  /** Everything the parser keeps between elements. */
  datatype ParseState = ParseState(open: seq<OpenBranch>, root: seq<Node>, nextBranch: BranchCount, nextKey: nat)

  const START := ParseState([], [], 0, 0)

  /** `branch` with `node` at the end of the arm being read. */
  function AppendTo(branch: OpenBranch, node: Node): OpenBranch {
    match branch.elseArm
    case Some(arm) => branch.(elseArm := Some(arm + [node]))
    case None => branch.(thenArm := branch.thenArm + [node])
  }

  /** The state with `node` appended to the innermost list being read. */
  function Emit(st: ParseState, node: Node): ParseState {
    if st.open == [] then st.(root := st.root + [node])
    else
      var top := |st.open| - 1;
      st.(open := st.open[..top] + [AppendTo(st.open[top], node)])
  }

  function EnterBranch(st: ParseState, opcode: byte): Result<ParseState, ExecutionError> {
    if |st.open| >= MAX_COVENANT_BRANCH_DEPTH || st.nextBranch >= 16 then Err(BranchDepthExceeded)
    else Ok(st.(open := st.open + [OpenBranch(st.nextBranch, opcode == OP_NOTIF, [], None)],
                nextBranch := st.nextBranch + 1))
  }

  function EnterElse(st: ParseState): Result<ParseState, ExecutionError> {
    var top := |st.open| - 1;
    if st.open != [] && st.open[top].elseArm.None?
    then Ok(st.(open := st.open[..top] + [st.open[top].(elseArm := Some([]))]))
    else Err(MalformedScript)
  }

  /** The node a closed branch becomes; a missing ELSE is an empty arm. */
  function Closed(branch: OpenBranch): Node {
    Branch(branch.bit, branch.notif, branch.thenArm,
           match branch.elseArm case Some(arm) => arm case None => [])
  }

  function LeaveBranch(st: ParseState): Result<ParseState, ExecutionError> {
    if st.open == [] then Err(MalformedScript)
    else
      var top := |st.open| - 1;
      Ok(Emit(st.(open := st.open[..top]), Closed(st.open[top])))
  }

  function KeyPush(script: seq<byte>, st: ParseState, position: nat): Result<(ParseState, nat), ExecutionError> {
    var end := position + 33;
    if end > |script| then Err(MalformedScript)
    else if !IsKeyCheck(script, position) then Ok((Emit(st, Push), end))
    else if st.nextKey >= MAX_COVENANT_BRANCH_KEYS then Err(TooManyKeys)
    else
      var verify := script[end] == OP_CHECKSIGVERIFY;
      Ok((Emit(st, KeyCheck(st.nextKey, verify)).(nextKey := st.nextKey + 1), end + 1))
  }

  function DataPush(script: seq<byte>, st: ParseState, position: nat): Result<(ParseState, nat), ExecutionError> {
    match ScriptElements.ReadElement(script, position)
    case None => Err(MalformedScript)
    case Some((_, end)) => Ok((Emit(st, Push), end))
  }

  /** Takes in one element; the number says up to where its operands reach, and
      is 0 for an element that has none. */
  function ParseElement(script: seq<byte>, st: ParseState, position: nat): (r: Result<(ParseState, nat), ExecutionError>)
    requires position < |script|
    ensures r.Ok? ==> r.value.1 <= |script|
  {
    var opcode := script[position];
    if opcode == OP_IF || opcode == OP_NOTIF then var next :- EnterBranch(st, opcode); Ok((next, 0))
    else if opcode == OP_ELSE then var next :- EnterElse(st); Ok((next, 0))
    else if opcode == OP_ENDIF then var next :- LeaveBranch(st); Ok((next, 0))
    else if opcode == OP_DATA_32 then KeyPush(script, st, position)
    else if IsDataPush(opcode) then DataPush(script, st, position)
    else if IsSmallPush(opcode) then Ok((Emit(st, Push), 0))
    else Ok((Emit(st, Op(opcode)), 0))
  }

  /** Where the walk goes on after an element at `position`. */
  function NextPosition(position: nat, operandsEnd: nat): nat {
    if operandsEnd > position then operandsEnd else position + 1
  }

  /** Parses from `position`, the start of an element, to the end. */
  function ParseFrom(script: seq<byte>, st: ParseState, position: nat): Result<ParseState, ExecutionError>
    requires position <= |script|
    decreases |script| - position
  {
    if position == |script| then Ok(st)
    else
      var (next, operandsEnd) :- ParseElement(script, st, position);
      ParseFrom(script, next, NextPosition(position, operandsEnd))
  }

  /** The parsed program and its selector mask. */
  function Parse(script: seq<byte>): Result<(seq<Node>, Mask), ExecutionError> {
    var st :- ParseFrom(script, START, 0);
    if st.open != [] then Err(MalformedScript)
    else Ok((st.root, Below(st.nextBranch)))
  }

  /** The parser as the source writes it: one struct updated in place. */
  class Parser {
    const script: seq<byte>
    var open: seq<OpenBranch>
    var root: seq<Node>
    var nextBranch: BranchCount
    var nextKey: nat

    constructor (script: seq<byte>)
      ensures this.script == script && State() == START
    {
      this.script := script;
      open, root, nextBranch, nextKey := [], [], 0, 0;
    }

    function State(): ParseState
      reads this
    {
      ParseState(open, root, nextBranch, nextKey)
    }

    method EmitNode(node: Node)
      modifies this
      ensures State() == Emit(old(State()), node)
    {
      if open == [] {
        root := root + [node];
      } else {
        var top := |open| - 1;
        open := open[top := AppendTo(open[top], node)];
      }
    }

    method EnterBranchInPlace(opcode: byte) returns (r: Result<(), ExecutionError>)
      modifies this
      ensures match EnterBranch(old(State()), opcode)
              case Ok(st) => r.Ok? && State() == st
              case Err(e) => r == Err(e)
    {
      if |open| >= MAX_COVENANT_BRANCH_DEPTH || nextBranch >= 16 { return Err(BranchDepthExceeded); }
      var bit := nextBranch;
      nextBranch := nextBranch + 1;
      open := open + [OpenBranch(bit, opcode == OP_NOTIF, [], None)];
      return Ok(());
    }

    method EnterElseInPlace() returns (r: Result<(), ExecutionError>)
      modifies this
      ensures match EnterElse(old(State()))
              case Ok(st) => r.Ok? && State() == st
              case Err(e) => r == Err(e)
    {
      if open != [] && open[|open| - 1].elseArm.None? {
        var top := |open| - 1;
        open := open[top := open[top].(elseArm := Some([]))];
        return Ok(());
      }
      return Err(MalformedScript);
    }

    method LeaveBranchInPlace() returns (r: Result<(), ExecutionError>)
      modifies this
      ensures match LeaveBranch(old(State()))
              case Ok(st) => r.Ok? && State() == st
              case Err(e) => r == Err(e)
    {
      if open == [] { return Err(MalformedScript); }
      var branch := open[|open| - 1];
      open := open[..|open| - 1];
      EmitNode(Closed(branch));
      return Ok(());
    }

    method KeyPushInPlace(position: nat) returns (r: Result<nat, ExecutionError>)
      modifies this
      ensures match KeyPush(script, old(State()), position)
              case Ok((st, end)) => r == Ok(end) && State() == st
              case Err(e) => r == Err(e)
    {
      var end := position + 33;
      if end > |script| { return Err(MalformedScript); }
      if !IsKeyCheck(script, position) {
        EmitNode(Push);
        return Ok(end);
      }
      if nextKey >= MAX_COVENANT_BRANCH_KEYS { return Err(TooManyKeys); }
      var key := nextKey;
      nextKey := nextKey + 1;
      EmitNode(KeyCheck(key, script[end] == OP_CHECKSIGVERIFY));
      return Ok(end + 1);
    }

    method ParseElementInPlace(position: nat) returns (r: Result<nat, ExecutionError>)
      requires position < |script|
      modifies this
      ensures match ParseElement(script, old(State()), position)
              case Ok((st, end)) => r == Ok(end) && State() == st
              case Err(e) => r == Err(e)
    {
      var opcode := script[position];
      var done: Result<(), ExecutionError> := Ok(());
      if opcode == OP_IF || opcode == OP_NOTIF {
        done := EnterBranchInPlace(opcode);
      } else if opcode == OP_ELSE {
        done := EnterElseInPlace();
      } else if opcode == OP_ENDIF {
        done := LeaveBranchInPlace();
      } else if opcode == OP_DATA_32 {
        r := KeyPushInPlace(position);
        return;
      } else if IsDataPush(opcode) {
        var read := ScriptElements.ReadElement(script, position);
        if read.None? { return Err(MalformedScript); }
        EmitNode(Push);
        return Ok(read.value.1);
      } else if IsSmallPush(opcode) {
        EmitNode(Push);
      } else {
        EmitNode(Op(opcode));
      }
      if done.Err? { return Err(done.error); }
      return Ok(0);
    }

    /** Visits every position of the script; elements only skip ahead. */
    method ParseInPlace() returns (r: Result<(seq<Node>, Mask), ExecutionError>)
      requires State() == START
      modifies this
      ensures r == Parse(script)
    {
      var operandsEnd: nat := 0;
      for position := 0 to |script|
        invariant operandsEnd <= |script|
        invariant var at := if operandsEnd > position then operandsEnd else position;
                  ParseFrom(script, START, 0) == ParseFrom(script, State(), at)
      {
        if position >= operandsEnd {
          var step := ParseElementInPlace(position);
          if step.Err? { return Err(step.error); }
          operandsEnd := step.value;
        }
      }
      if open != [] { return Err(MalformedScript); }
      return Ok((root, Below(nextBranch)));
    }
  }
}
