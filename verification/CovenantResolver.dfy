/** The flat branch/key resolver of src/contract/covenant/branch.rs. */
module CovenantResolver {
  import opened Common
  import opened CovenantScript
  import ScriptElements

  datatype BranchResolveError = MalformedScript | BranchDepthExceeded | TooManyKeys | AmbiguousKey

  /** A key occurrence bound to its branch path: the selectors that decide the
      path and the values they must have. */
  datatype BranchKey = BranchKey(key: seq<byte>, decisionMask: Mask, ifMask: Mask) {
    /** Whether a selector assignment reaches this key. */
    predicate MatchesSelectors(suppliedMask: Mask, suppliedTrueMask: Mask) {
      decisionMask <= suppliedMask && AgreeOn(suppliedTrueMask, ifMask, decisionMask)
    }
  }

  datatype BranchResolution = BranchResolution(keys: seq<BranchKey>, selectorMask: Mask)

  datatype Frame = Frame(bit: Selector, inElse: bool)

  /** Everything the resolver keeps between elements. */
  datatype ResolverState = ResolverState(
    keys: seq<BranchKey>, frames: seq<Frame>, nextBranch: BranchCount,
    selectorMask: Mask, decisionMask: Mask, ifMask: Mask)

  const START := ResolverState([], [], 0, {}, {}, {})

  function EnterBranch(st: ResolverState, opcode: byte): Result<ResolverState, BranchResolveError> {
    if st.nextBranch >= 16 then Err(BranchResolveError.BranchDepthExceeded)
    else
      var bit := st.nextBranch;
      Ok(st.(frames := st.frames + [Frame(bit, false)],
             nextBranch := bit + 1,
             selectorMask := st.selectorMask + {bit},
             decisionMask := st.decisionMask + {bit},
             ifMask := if opcode == OP_IF then st.ifMask + {bit} else st.ifMask))
  }

  function EnterElse(st: ResolverState): Result<ResolverState, BranchResolveError> {
    if st.frames == [] then Err(BranchResolveError.MalformedScript)
    else
      var frame := st.frames[|st.frames| - 1];
      if frame.inElse then Err(BranchResolveError.MalformedScript)
      else Ok(st.(frames := st.frames[..|st.frames| - 1] + [Frame(frame.bit, true)],
                  ifMask := Toggle(st.ifMask, frame.bit)))
  }

  function LeaveBranch(st: ResolverState): Result<ResolverState, BranchResolveError> {
    if st.frames == [] then Err(BranchResolveError.MalformedScript)
    else
      var bit := st.frames[|st.frames| - 1].bit;
      Ok(st.(frames := st.frames[..|st.frames| - 1],
             decisionMask := st.decisionMask - {bit},
             ifMask := st.ifMask - {bit}))
  }

  function PushKey(st: ResolverState, item: BranchKey): Result<ResolverState, BranchResolveError> {
    if item in st.keys then Err(AmbiguousKey)
    else if |st.keys| >= MAX_COVENANT_BRANCH_KEYS then Err(BranchResolveError.TooManyKeys)
    else Ok(st.(keys := st.keys + [item]))
  }

  /** Records a 32-byte push that a signature check consumes. */
  function InspectKeyPush(st: ResolverState, rest: seq<byte>): Result<ResolverState, BranchResolveError> {
    if |rest| < 33 then Err(BranchResolveError.MalformedScript)
    else if IsKeyCheck(rest, 0) then PushKey(st, BranchKey(rest[1..33], st.decisionMask, st.ifMask))
    else Ok(st)
  }

  /** Interprets the element at the start of `rest`: the new state and how many
      bytes the element spans. */
  function Step(st: ResolverState, rest: seq<byte>): (r: Result<(ResolverState, nat), BranchResolveError>)
    requires rest != []
    ensures r.Ok? ==> r.value.1 > 0
  {
    var opcode := rest[0];
    if opcode == OP_IF || opcode == OP_NOTIF then var next :- EnterBranch(st, opcode); Ok((next, 1))
    else if opcode == OP_ELSE then var next :- EnterElse(st); Ok((next, 1))
    else if opcode == OP_ENDIF then var next :- LeaveBranch(st); Ok((next, 1))
    else if opcode == OP_DATA_32 then var next :- InspectKeyPush(st, rest); Ok((next, 33))
    else if IsDataPush(opcode) then
      match ScriptElements.ReadElement(rest, 0)
      case None => Err(BranchResolveError.MalformedScript)
      case Some((_, end)) => Ok((st, end))
    else Ok((st, 1))
  }

  /** Resolves the suffix `rest` of the script. */
  function ResolveRest(st: ResolverState, rest: seq<byte>): Result<ResolverState, BranchResolveError>
    decreases |rest|
  {
    if rest == [] then Ok(st)
    else
      var (next, width) :- Step(st, rest);
      if width > |rest| then Err(BranchResolveError.MalformedScript) else ResolveRest(next, rest[width..])
  }

  function Resolve(script: seq<byte>): Result<BranchResolution, BranchResolveError> {
    var st :- ResolveRest(START, script);
    if st.frames != [] then Err(BranchResolveError.MalformedScript)
    else Ok(BranchResolution(st.keys, st.selectorMask))
  }

  /** The resolver as the source writes it: fixed arrays filled in place. */
  class BranchParser {
    const keys: array<BranchKey>
    const frames: array<Frame>
    var len: nat
    var depth: nat
    var nextBranch: BranchCount
    var selectorMask: Mask
    var decisionMask: Mask
    var ifMask: Mask

    ghost predicate Valid()
      reads this, frames
    {
      && keys.Length == MAX_COVENANT_BRANCH_KEYS && frames.Length == MAX_COVENANT_BRANCH_DEPTH
      && len <= keys.Length && depth <= nextBranch
    }

    ghost function State(): ResolverState
      requires Valid()
      reads this, keys, frames
    {
      ResolverState(keys[..len], frames[..depth], nextBranch, selectorMask, decisionMask, ifMask)
    }

    constructor ()
      ensures Valid() && fresh(keys) && fresh(frames) && State() == START
    {
      keys := new BranchKey[16](_ => BranchKey(seq(32, _ => 0), {}, {}));
      frames := new Frame[16](_ => Frame(0, false));
      len, depth, nextBranch := 0, 0, 0;
      selectorMask, decisionMask, ifMask := {}, {}, {};
    }

    method EnterBranchInPlace(opcode: byte) returns (r: Result<(), BranchResolveError>)
      requires Valid()
      modifies this, frames
      ensures Valid()
      ensures match EnterBranch(old(State()), opcode)
              case Ok(st) => r.Ok? && State() == st
              case Err(e) => r == Err(e)
    {
      if nextBranch >= MAX_COVENANT_BRANCH_DEPTH { return Err(BranchResolveError.BranchDepthExceeded); }
      var bit := nextBranch;
      nextBranch := nextBranch + 1;
      selectorMask := selectorMask + {bit};
      frames[depth] := Frame(bit, false);
      depth := depth + 1;
      decisionMask := decisionMask + {bit};
      if opcode == OP_IF { ifMask := ifMask + {bit}; }
      return Ok(());
    }

    method EnterElseInPlace() returns (r: Result<(), BranchResolveError>)
      requires Valid()
      modifies this, frames
      ensures Valid()
      ensures match EnterElse(old(State()))
              case Ok(st) => r.Ok? && State() == st
              case Err(e) => r == Err(e)
    {
      if depth == 0 { return Err(BranchResolveError.MalformedScript); }
      var top := depth - 1;
      if frames[top].inElse { return Err(BranchResolveError.MalformedScript); }
      ifMask := Toggle(ifMask, frames[top].bit);
      frames[top] := Frame(frames[top].bit, true);
      return Ok(());
    }

    method LeaveBranchInPlace() returns (r: Result<(), BranchResolveError>)
      requires Valid()
      modifies this
      ensures Valid()
      ensures match LeaveBranch(old(State()))
              case Ok(st) => r.Ok? && State() == st
              case Err(e) => r == Err(e)
    {
      if depth == 0 { return Err(BranchResolveError.MalformedScript); }
      depth := depth - 1;
      var bit := frames[depth].bit;
      decisionMask := decisionMask - {bit};
      ifMask := ifMask - {bit};
      return Ok(());
    }

    method PushKeyInPlace(item: BranchKey) returns (r: Result<(), BranchResolveError>)
      requires Valid()
      modifies this, keys
      ensures Valid()
      ensures match PushKey(old(State()), item)
              case Ok(st) => r.Ok? && State() == st
              case Err(e) => r == Err(e)
    {
      if item in keys[..len] { return Err(AmbiguousKey); }
      if len >= MAX_COVENANT_BRANCH_KEYS { return Err(BranchResolveError.TooManyKeys); }
      keys[len] := item;
      len := len + 1;
      return Ok(());
    }

    method StepInPlace(rest: seq<byte>) returns (r: Result<nat, BranchResolveError>)
      requires Valid() && rest != []
      modifies this, keys, frames
      ensures Valid()
      ensures match Step(old(State()), rest)
              case Ok((st, width)) => r == Ok(width) && State() == st
              case Err(e) => r == Err(e)
    {
      var opcode := rest[0];
      var done: Result<(), BranchResolveError> := Ok(());
      var width := 1;
      if opcode == OP_IF || opcode == OP_NOTIF {
        done := EnterBranchInPlace(opcode);
      } else if opcode == OP_ELSE {
        done := EnterElseInPlace();
      } else if opcode == OP_ENDIF {
        done := LeaveBranchInPlace();
      } else if opcode == OP_DATA_32 {
        if |rest| < 33 { return Err(BranchResolveError.MalformedScript); }
        width := 33;
        if IsKeyCheck(rest, 0) { done := PushKeyInPlace(BranchKey(rest[1..33], decisionMask, ifMask)); }
      } else if IsDataPush(opcode) {
        var read := ScriptElements.ReadElement(rest, 0);
        if read.None? { return Err(BranchResolveError.MalformedScript); }
        width := read.value.1;
      }
      if done.Err? { return Err(done.error); }
      return Ok(width);
    }
  }

  /** Walks the suffixes of the script with one `BranchParser`. */
  method ResolveCovenantBranches(script: seq<byte>) returns (r: Result<BranchResolution, BranchResolveError>)
    ensures r == Resolve(script)
  {
    var parser := new BranchParser();
    var rest := script;
    while rest != []
      invariant parser.Valid() && fresh(parser) && fresh(parser.keys) && fresh(parser.frames)
      invariant ResolveRest(START, script) == ResolveRest(parser.State(), rest)
      decreases |rest|
    {
      var step := parser.StepInPlace(rest);
      if step.Err? { return Err(step.error); }
      if step.value > |rest| { return Err(BranchResolveError.MalformedScript); }
      rest := rest[step.value..];
    }
    if parser.depth != 0 { return Err(BranchResolveError.MalformedScript); }
    return Ok(BranchResolution(parser.keys[..parser.len], parser.selectorMask));
  }
}
