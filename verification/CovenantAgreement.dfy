/** The two covenant parsers agree: the flat resolver accepts exactly the
    scripts the tree parser accepts whose keys are all distinct, and both bind
    the same key occurrences to the same selector paths. */
module CovenantAgreement {
  import opened Common
  import opened CovenantScript
  import opened CovenantParser
  import R = CovenantResolver
  import ScriptElements

  // ----- Key occurrences of a script and of a tree -----

  /** The offsets of the key pushes from `at` on, in script order. */
  function KeyOffsets(script: seq<byte>, at: nat): (offsets: seq<nat>)
    requires at <= |script|
    ensures forall p :: 0 <= p < |offsets| ==>
              offsets[p] + 33 < |script| && script[offsets[p]] == OP_DATA_32 && IsKeyCheck(script, offsets[p])
    decreases |script| - at
  {
    match ScriptElements.ReadElement(script, at)
    case None => []
    case Some((element, next)) =>
      (if element.opcode == OP_DATA_32 && IsKeyCheck(script, at) then [at] else []) + KeyOffsets(script, next)
  }

  lemma OffsetsUnfold(script: seq<byte>, at: nat)
    requires at <= |script| && ScriptElements.ReadElement(script, at).Some?
    ensures var rest := KeyOffsets(script, ScriptElements.ReadElement(script, at).value.1);
            KeyOffsets(script, at) == if script[at] == OP_DATA_32 && IsKeyCheck(script, at) then [at] + rest else rest
  {
  }

  /** A key position under the path that decides it. */
  datatype Binding = Binding(position: nat, decisions: Mask, ifs: Mask)

  /** The selectors that must be true in the arm of `bit` that wants `value`. */
  function Wanting(ifs: Mask, bit: Selector, value: bool): Mask {
    if value then ifs + {bit} else ifs
  }

  function NodeBindings(node: Node, decisions: Mask, ifs: Mask): seq<Binding>
    decreases node, 0
  {
    match node
    case KeyCheck(position, _) => [Binding(position, decisions, ifs)]
    case Branch(bit, notif, thenArm, elseArm) =>
      Bindings(thenArm, decisions + {bit}, Wanting(ifs, bit, !notif))
      + Bindings(elseArm, decisions + {bit}, Wanting(ifs, bit, notif))
    case _ => []
  }

  /** Every key of a tree with the selector path that reaches it. */
  function Bindings(nodes: seq<Node>, decisions: Mask, ifs: Mask): seq<Binding>
    decreases nodes, 1
  {
    if nodes == [] then []
    else NodeBindings(nodes[0], decisions, ifs) + Bindings(nodes[1..], decisions, ifs)
  }

  lemma {:induction false} BindingsAppend(nodes: seq<Node>, node: Node, decisions: Mask, ifs: Mask)
    ensures Bindings(nodes + [node], decisions, ifs) == Bindings(nodes, decisions, ifs) + NodeBindings(node, decisions, ifs)
  {
    var all := nodes + [node];
    if nodes == [] {
      assert all[1..] == [];
    } else {
      BindingsAppend(nodes[1..], node, decisions, ifs);
      assert all[1..] == nodes[1..] + [node] && all[0] == nodes[0];
    }
  }

  // ----- Keys below the branches still open -----

  /** The selectors deciding the arm being read. */
  function PathDecisions(open: seq<OpenBranch>): Mask {
    if open == [] then {}
    else PathDecisions(open[..|open| - 1]) + {open[|open| - 1].bit}
  }

  /** The selectors that must be true for the arm being read. */
  function PathIfs(open: seq<OpenBranch>): Mask {
    if open == [] then {}
    else
      var top := open[|open| - 1];
      Wanting(PathIfs(open[..|open| - 1]), top.bit, top.notif == top.elseArm.Some?)
  }

  function OpenBindings(open: seq<OpenBranch>): seq<Binding> {
    if open == [] then []
    else
      var below, top := open[..|open| - 1], open[|open| - 1];
      OpenBindings(below) + NodeBindings(Closed(top), PathDecisions(below), PathIfs(below))
  }

  /** Every key met so far, in script order. */
  function AllBindings(st: ParseState): seq<Binding> {
    Bindings(st.root, {}, {}) + OpenBindings(st.open)
  }

  /** No branch reuses a selector that decides the path above it. */
  predicate WellNestedNode(node: Node, above: Mask)
    decreases node, 0
  {
    node.Branch? ==>
      && node.bit !in above
      && WellNested(node.thenArm, above + {node.bit})
      && WellNested(node.elseArm, above + {node.bit})
  }

  predicate WellNested(nodes: seq<Node>, above: Mask)
    decreases nodes, 1
  {
    nodes != [] ==> WellNestedNode(nodes[0], above) && WellNested(nodes[1..], above)
  }

  lemma {:induction false} WellNestedAppend(nodes: seq<Node>, node: Node, above: Mask)
    requires WellNested(nodes, above) && WellNestedNode(node, above)
    ensures WellNested(nodes + [node], above)
  {
    var all := nodes + [node];
    if nodes == [] {
      assert all[1..] == [];
    } else {
      WellNestedAppend(nodes[1..], node, above);
      assert all[1..] == nodes[1..] + [node] && all[0] == nodes[0];
    }
  }

  predicate WellNestedOpen(open: seq<OpenBranch>) {
    open != [] ==>
      && WellNestedOpen(open[..|open| - 1])
      && WellNestedNode(Closed(open[|open| - 1]), PathDecisions(open[..|open| - 1]))
  }

  lemma {:induction false} PathBits(open: seq<OpenBranch>, bound: nat)
    requires forall j :: 0 <= j < |open| ==> open[j].bit < bound
    ensures forall b :: b in PathDecisions(open) ==> b < bound
    ensures PathIfs(open) <= PathDecisions(open)
  {
    if open != [] { PathBits(open[..|open| - 1], bound); }
  }

  lemma NoBindings(decisions: Mask, ifs: Mask)
    ensures Bindings([], decisions, ifs) == []
  {
  }

  lemma GroupBindings(a: seq<Binding>, b: seq<Binding>, c: seq<Binding>)
    ensures a + (b + c) == a + b + c
  {
  }

  /** Appending to the arm being read adds the node's keys, under that arm's
      path, after the branch's other keys. */
  lemma ArmBindings(top: OpenBranch, node: Node, decisions: Mask, ifs: Mask)
    requires WellNestedNode(Closed(top), decisions) && WellNestedNode(node, decisions + {top.bit})
    ensures var path := Wanting(ifs, top.bit, top.notif == top.elseArm.Some?);
            NodeBindings(Closed(AppendTo(top, node)), decisions, ifs)
            == NodeBindings(Closed(top), decisions, ifs) + NodeBindings(node, decisions + {top.bit}, path)
    ensures WellNestedNode(Closed(AppendTo(top, node)), decisions)
  {
    hide Bindings, WellNested, Wanting;
    var ds := decisions + {top.bit};
    NoBindings(ds, Wanting(ifs, top.bit, top.notif));
    match top.elseArm
    case Some(arm) =>
      BindingsAppend(arm, node, ds, Wanting(ifs, top.bit, top.notif));
      WellNestedAppend(arm, node, ds);
      GroupBindings(Bindings(top.thenArm, ds, Wanting(ifs, top.bit, !top.notif)), Bindings(arm, ds, Wanting(ifs, top.bit, top.notif)),
                    NodeBindings(node, ds, Wanting(ifs, top.bit, top.notif)));
    case None =>
      BindingsAppend(top.thenArm, node, ds, Wanting(ifs, top.bit, !top.notif));
      WellNestedAppend(top.thenArm, node, ds);
      var before := Bindings(top.thenArm, ds, Wanting(ifs, top.bit, !top.notif));
      var added := NodeBindings(node, ds, Wanting(ifs, top.bit, !top.notif));
      assert before + [] == before && (before + added) + [] == before + added;
  }

  lemma EmitOpenBindings(below: seq<OpenBranch>, top: OpenBranch, node: Node)
    requires WellNestedOpen(below + [top]) && WellNestedNode(node, PathDecisions(below + [top]))
    ensures var open, next := below + [top], below + [AppendTo(top, node)];
            && OpenBindings(next) == OpenBindings(open) + NodeBindings(node, PathDecisions(open), PathIfs(open))
            && PathDecisions(next) == PathDecisions(open) && PathIfs(next) == PathIfs(open)
            && WellNestedOpen(next)
  {
    var open, next := below + [top], below + [AppendTo(top, node)];
    assert open[..|open| - 1] == below && next[..|next| - 1] == below;
    ArmBindings(top, node, PathDecisions(below), PathIfs(below));
  }

  lemma EmitRootBindings(root: seq<Node>, node: Node)
    requires WellNested(root, {}) && WellNestedNode(node, {})
    ensures Bindings(root + [node], {}, {}) == Bindings(root, {}, {}) + NodeBindings(node, {}, {})
    ensures WellNested(root + [node], {})
  {
    BindingsAppend(root, node, {}, {});
    WellNestedAppend(root, node, {});
  }

  lemma Regroup(rooted: seq<Binding>, nested: seq<Binding>, added: seq<Binding>)
    ensures rooted + (nested + added) == (rooted + nested) + added
    ensures (rooted + added) + [] == (rooted + []) + added
  {
  }

  /** Appending a node adds its keys, under the current path, after all others. */
  lemma EmitBindings(st: ParseState, node: Node)
    requires WellNested(st.root, {}) && WellNestedOpen(st.open) && WellNestedNode(node, PathDecisions(st.open))
    ensures var next := Emit(st, node);
            && AllBindings(next) == AllBindings(st) + NodeBindings(node, PathDecisions(st.open), PathIfs(st.open))
            && PathDecisions(next.open) == PathDecisions(st.open)
            && PathIfs(next.open) == PathIfs(st.open)
            && WellNested(next.root, {}) && WellNestedOpen(next.open)
  {
    Regroup(Bindings(st.root, {}, {}), OpenBindings(st.open),
            NodeBindings(node, PathDecisions(st.open), PathIfs(st.open)));
    if st.open == [] {
      EmitRootBindings(st.root, node);
    } else {
      var below, top := st.open[..|st.open| - 1], st.open[|st.open| - 1];
      assert below + [top] == st.open;
      EmitOpenBindings(below, top, node);
    }
  }

  // ----- The two states after the same elements -----

  /** The same branches are open, in the same arm. */
  ghost predicate FramesMirror(ps: ParseState, rs: R.ResolverState) {
    && rs.nextBranch == ps.nextBranch && |ps.open| <= ps.nextBranch
    && |rs.frames| == |ps.open|
    && (forall j :: 0 <= j < |ps.open| ==>
          && rs.frames[j] == R.Frame(ps.open[j].bit, ps.open[j].elseArm.Some?)
          && ps.open[j].bit < ps.nextBranch)
  }

  /** The masks are the selectors met and the path of the open branches. */
  ghost predicate PathsMirror(ps: ParseState, rs: R.ResolverState) {
    && rs.selectorMask == Below(ps.nextBranch)
    && rs.decisionMask == PathDecisions(ps.open) && rs.ifMask == PathIfs(ps.open)
    && WellNested(ps.root, {}) && WellNestedOpen(ps.open)
  }

  /** The keys are those of the tree, on the same paths. */
  ghost predicate KeysMirror(ps: ParseState, rs: R.ResolverState) {
    && |rs.keys| == ps.nextKey == |AllBindings(ps)|
    && (forall p :: 0 <= p < ps.nextKey ==>
          AllBindings(ps)[p] == Binding(p, rs.keys[p].decisionMask, rs.keys[p].ifMask))
  }

  /** The resolver state mirrors the parser state. */
  ghost predicate Mirrors(ps: ParseState, rs: R.ResolverState) {
    FramesMirror(ps, rs) && PathsMirror(ps, rs) && KeysMirror(ps, rs)
  }

  /** The errors both parsers name alike. */
  predicate SameError(e: R.BranchResolveError, f: ExecutionError) {
    match e
    case MalformedScript => f.MalformedScript?
    case BranchDepthExceeded => f.BranchDepthExceeded?
    case TooManyKeys => f.TooManyKeys?
    case AmbiguousKey => false
  }

  function KeyBytes(script: seq<byte>, at: nat): seq<byte>
    requires at + 33 <= |script|
  {
    script[at + 1..at + 33]
  }

  lemma EnterMirrors(ps: ParseState, rs: R.ResolverState, opcode: byte)
    requires Mirrors(ps, rs) && opcode in {OP_IF, OP_NOTIF}
    ensures match EnterBranch(ps, opcode)
            case Ok(next) => R.EnterBranch(rs, opcode).Ok? && Mirrors(next, R.EnterBranch(rs, opcode).value)
                             && R.EnterBranch(rs, opcode).value.keys == rs.keys
            case Err(f) => R.EnterBranch(rs, opcode).Err? && SameError(R.EnterBranch(rs, opcode).error, f)
  {
    if ps.nextBranch < 16 {
      hide Mirrors, FramesMirror, PathsMirror, KeysMirror;
      EnterFrames(ps, rs, opcode);
      EnterPaths(ps, rs, opcode);
      assert Mirrors(ps, rs) ==> KeysMirror(ps, rs) by { MirrorsParts(ps, rs); }
      EnterKeys(ps, rs, opcode);
      MirrorsParts(EnterBranch(ps, opcode).value, R.EnterBranch(rs, opcode).value);
    }
  }

  lemma MirrorsParts(ps: ParseState, rs: R.ResolverState)
    ensures Mirrors(ps, rs) <==> FramesMirror(ps, rs) && PathsMirror(ps, rs) && KeysMirror(ps, rs)
  {
  }

  lemma EnterFrames(ps: ParseState, rs: R.ResolverState, opcode: byte)
    requires Mirrors(ps, rs) && ps.nextBranch < 16
    ensures EnterBranch(ps, opcode).Ok? && R.EnterBranch(rs, opcode).Ok?
    ensures FramesMirror(EnterBranch(ps, opcode).value, R.EnterBranch(rs, opcode).value)
  {
    hide PathsMirror, KeysMirror;
  }

  lemma EnterPaths(ps: ParseState, rs: R.ResolverState, opcode: byte)
    requires Mirrors(ps, rs) && ps.nextBranch < 16 && opcode in {OP_IF, OP_NOTIF}
    ensures EnterBranch(ps, opcode).Ok? && R.EnterBranch(rs, opcode).Ok?
    ensures PathsMirror(EnterBranch(ps, opcode).value, R.EnterBranch(rs, opcode).value)
  {
    hide KeysMirror, OpenBindings, PathDecisions, PathIfs, WellNested, WellNestedOpen;
    PathBits(ps.open, ps.nextBranch);
    EmptyBranchOpened(ps.open, OpenBranch(ps.nextBranch, opcode == OP_NOTIF, [], None));
  }

  lemma EnterKeys(ps: ParseState, rs: R.ResolverState, opcode: byte)
    requires Mirrors(ps, rs) && ps.nextBranch < 16
    ensures EnterBranch(ps, opcode).Ok? && R.EnterBranch(rs, opcode).Ok?
    ensures KeysMirror(EnterBranch(ps, opcode).value, R.EnterBranch(rs, opcode).value)
    ensures R.EnterBranch(rs, opcode).value.keys == rs.keys
  {
    hide Bindings, OpenBindings, PathDecisions, PathIfs, WellNested, WellNestedOpen;
    PathBits(ps.open, ps.nextBranch);
    EmptyBranchOpened(ps.open, OpenBranch(ps.nextBranch, opcode == OP_NOTIF, [], None));
  }

  /** Opening a branch adds its selector to the path and no keys. */
  lemma EmptyBranchOpened(open: seq<OpenBranch>, top: OpenBranch)
    requires WellNestedOpen(open) && top.thenArm == [] && top.elseArm.None? && top.bit !in PathDecisions(open)
    ensures var next := open + [top];
            && OpenBindings(next) == OpenBindings(open) && WellNestedOpen(next)
            && PathDecisions(next) == PathDecisions(open) + {top.bit}
            && PathIfs(next) == Wanting(PathIfs(open), top.bit, !top.notif)
  {
    assert (open + [top])[..|open|] == open;
    assert NodeBindings(Closed(top), PathDecisions(open), PathIfs(open)) == [];
    assert OpenBindings(open) + [] == OpenBindings(open);
  }

  lemma ElseMirrors(ps: ParseState, rs: R.ResolverState)
    requires Mirrors(ps, rs)
    ensures match EnterElse(ps)
            case Ok(next) => R.EnterElse(rs).Ok? && Mirrors(next, R.EnterElse(rs).value)
                             && R.EnterElse(rs).value.keys == rs.keys
            case Err(f) => R.EnterElse(rs).Err? && SameError(R.EnterElse(rs).error, f)
  {
    if ps.open != [] && ps.open[|ps.open| - 1].elseArm.None? {
      var next := EnterElse(ps).value;
      var below := ps.open[..|ps.open| - 1];
      assert next.open[..|next.open| - 1] == below;
      PathBits(below, ps.nextBranch);
    }
  }

  lemma LeaveFrames(ps: ParseState, rs: R.ResolverState)
    requires Mirrors(ps, rs) && ps.open != []
    ensures LeaveBranch(ps).Ok? && R.LeaveBranch(rs).Ok?
    ensures FramesMirror(LeaveBranch(ps).value, R.LeaveBranch(rs).value)
  {
    hide PathsMirror, KeysMirror, Emit;
    EmitKeepsFrames(ps.(open := ps.open[..|ps.open| - 1]), Closed(ps.open[|ps.open| - 1]));
  }

  lemma LeavePaths(ps: ParseState, rs: R.ResolverState)
    requires Mirrors(ps, rs) && ps.open != []
    ensures LeaveBranch(ps).Ok? && R.LeaveBranch(rs).Ok?
    ensures PathsMirror(LeaveBranch(ps).value, R.LeaveBranch(rs).value)
  {
    hide KeysMirror, Emit, Bindings, NodeBindings, WellNested, AllBindings;
    var below, top := ps.open[..|ps.open| - 1], ps.open[|ps.open| - 1];
    PathBits(below, ps.nextBranch);
    EmitBindings(ps.(open := below), Closed(top));
    EmitKeepsFrames(ps.(open := below), Closed(top));
  }

  lemma LeaveKeys(ps: ParseState, rs: R.ResolverState)
    requires Mirrors(ps, rs) && ps.open != []
    ensures LeaveBranch(ps).Ok? && R.LeaveBranch(rs).Ok?
    ensures KeysMirror(LeaveBranch(ps).value, R.LeaveBranch(rs).value) && R.LeaveBranch(rs).value.keys == rs.keys
  {
    hide Emit, Bindings, NodeBindings, WellNested, WellNestedNode;
    var below, top := ps.open[..|ps.open| - 1], ps.open[|ps.open| - 1];
    var st := ps.(open := below);
    EmitBindings(st, Closed(top));
    EmitKeepsFrames(st, Closed(top));
    Regroup(Bindings(st.root, {}, {}), OpenBindings(below), NodeBindings(Closed(top), PathDecisions(below), PathIfs(below)));
    assert AllBindings(Emit(st, Closed(top))) == AllBindings(ps);
  }

  lemma LeaveMirrors(ps: ParseState, rs: R.ResolverState)
    requires Mirrors(ps, rs)
    ensures match LeaveBranch(ps)
            case Ok(next) => R.LeaveBranch(rs).Ok? && Mirrors(next, R.LeaveBranch(rs).value)
                             && R.LeaveBranch(rs).value.keys == rs.keys
            case Err(f) => R.LeaveBranch(rs).Err? && SameError(R.LeaveBranch(rs).error, f)
  {
    hide PathsMirror, KeysMirror;
    if ps.open != [] {
      LeaveFrames(ps, rs);
      LeavePaths(ps, rs);
      LeaveKeys(ps, rs);
      hide FramesMirror, R.LeaveBranch, LeaveBranch;
    }
  }

  lemma EmitKeepsFrames(st: ParseState, node: Node)
    ensures var next := Emit(st, node);
            && |next.open| == |st.open| && next.nextBranch == st.nextBranch && next.nextKey == st.nextKey
            && forall j :: 0 <= j < |st.open| ==>
                 next.open[j].bit == st.open[j].bit && next.open[j].elseArm.Some? == st.open[j].elseArm.Some?
  {
  }

  lemma EmitMirrors(ps: ParseState, rs: R.ResolverState, node: Node)
    requires Mirrors(ps, rs) && (node.Push? || node.Op?)
    ensures Mirrors(Emit(ps, node), rs)
  {
    hide Emit, Bindings, OpenBindings, WellNested, WellNestedOpen, PathDecisions, PathIfs, AllBindings;
    EmitBindings(ps, node);
    EmitKeepsFrames(ps, node);
    assert AllBindings(ps) + [] == AllBindings(ps);
  }

  lemma KeyMirrors(ps: ParseState, rs: R.ResolverState, key: seq<byte>, verify: bool)
    requires Mirrors(ps, rs)
    ensures var next := Emit(ps, KeyCheck(ps.nextKey, verify)).(nextKey := ps.nextKey + 1);
            var item := R.BranchKey(key, rs.decisionMask, rs.ifMask);
            Mirrors(next, rs.(keys := rs.keys + [item]))
  {
    hide Emit, Bindings, OpenBindings, WellNested, WellNestedOpen, PathDecisions, PathIfs;
    var node := KeyCheck(ps.nextKey, verify);
    EmitBindings(ps, node);
    EmitKeepsFrames(ps, node);
    assert AllBindings(Emit(ps, node).(nextKey := ps.nextKey + 1)) == AllBindings(Emit(ps, node));
    hide AllBindings;
    assert AllBindings(Emit(ps, node)) == AllBindings(ps) + [Binding(ps.nextKey, rs.decisionMask, rs.ifMask)];
  }

  /** Both parsers move to the same state and the same next offset over the
      element at `at`, or fail alike. */
  ghost predicate StepMirrored(script: seq<byte>, at: nat, ps: ParseState, rs: R.ResolverState)
    requires at < |script|
  {
    var step := R.Step(rs, script[at..]);
    match ParseElement(script, ps, at)
    case Err(f) => step.Err? && SameError(step.error, f)
    case Ok((next, end)) =>
      && step.Ok? && Mirrors(next, step.value.0) && step.value.0.keys == rs.keys
      && NextPosition(at, end) == at + step.value.1 <= |script|
      && KeyOffsets(script, at) == KeyOffsets(script, at + step.value.1)
  }

  lemma BranchStepMirrors(script: seq<byte>, at: nat, ps: ParseState, rs: R.ResolverState)
    requires at < |script| && Mirrors(ps, rs)
    requires script[at] in {OP_IF, OP_NOTIF, OP_ELSE, OP_ENDIF}
    ensures StepMirrored(script, at, ps, rs)
  {
    hide Mirrors, AllBindings, Emit, EnterBranch, EnterElse, LeaveBranch, R.EnterBranch, R.EnterElse, R.LeaveBranch;
    var opcode := script[at];
    if opcode == OP_IF || opcode == OP_NOTIF {
      EnterMirrors(ps, rs, opcode);
    } else if opcode == OP_ELSE {
      ElseMirrors(ps, rs);
    } else {
      LeaveMirrors(ps, rs);
    }
  }

  lemma KeyPushStepMirrors(script: seq<byte>, at: nat, ps: ParseState, rs: R.ResolverState)
    requires at < |script| && Mirrors(ps, rs)
    requires script[at] == OP_DATA_32 && !IsKeyCheck(script, at)
    ensures StepMirrored(script, at, ps, rs)
  {
    hide Mirrors, AllBindings, Emit;
    assert IsKeyCheck(script[at..], 0) == IsKeyCheck(script, at);
    EmitMirrors(ps, rs, Push);
  }

  lemma DataStepMirrors(script: seq<byte>, at: nat, ps: ParseState, rs: R.ResolverState)
    requires at < |script| && Mirrors(ps, rs)
    requires script[at] != OP_DATA_32 && IsDataPush(script[at])
    ensures StepMirrored(script, at, ps, rs)
  {
    hide Mirrors, AllBindings, Emit;
    ScriptElements.ReadFromSuffix(script, at);
    EmitMirrors(ps, rs, Push);
    hide ScriptElements.ReadElement;
  }

  lemma OpcodeStepMirrors(script: seq<byte>, at: nat, ps: ParseState, rs: R.ResolverState)
    requires at < |script| && Mirrors(ps, rs)
    requires script[at] !in {OP_IF, OP_NOTIF, OP_ELSE, OP_ENDIF}
    requires script[at] != OP_DATA_32 && !IsDataPush(script[at])
    ensures StepMirrored(script, at, ps, rs)
  {
    hide Mirrors, AllBindings, Emit;
    EmitMirrors(ps, rs, if IsSmallPush(script[at]) then Push else Op(script[at]));
  }

  /** One element that is not a key check. */
  lemma StepMirrors(script: seq<byte>, at: nat, ps: ParseState, rs: R.ResolverState)
    requires at < |script| && Mirrors(ps, rs)
    requires script[at] != OP_DATA_32 || !IsKeyCheck(script, at)
    ensures StepMirrored(script, at, ps, rs)
  {
    hide Mirrors, StepMirrored, IsKeyCheck, IsDataPush;
    if script[at] in {OP_IF, OP_NOTIF, OP_ELSE, OP_ENDIF} {
      BranchStepMirrors(script, at, ps, rs);
    } else if script[at] == OP_DATA_32 {
      KeyPushStepMirrors(script, at, ps, rs);
    } else if IsDataPush(script[at]) {
      DataStepMirrors(script, at, ps, rs);
    } else {
      OpcodeStepMirrors(script, at, ps, rs);
    }
  }

  predicate Distinct(keys: seq<R.BranchKey>) {
    forall i, j :: 0 <= i < j < |keys| ==> keys[i] != keys[j]
  }

  /** A checked key is one element for the tree parser and two for the flat
      resolver, which steps over the check on its own. */
  lemma KeyElement(script: seq<byte>, at: nat, ps: ParseState, rs: R.ResolverState)
    requires at < |script| && script[at] == OP_DATA_32 && IsKeyCheck(script, at)
    requires Mirrors(ps, rs)
    ensures KeyOffsets(script, at) == [at] + KeyOffsets(script, at + 34)
    ensures var emitted := Emit(ps, KeyCheck(ps.nextKey, script[at + 33] == OP_CHECKSIGVERIFY));
            ParseFrom(script, ps, at) ==
            if |rs.keys| >= MAX_COVENANT_BRANCH_KEYS then Err(TooManyKeys)
            else ParseFrom(script, emitted.(nextKey := ps.nextKey + 1), at + 34)
    ensures var item := R.BranchKey(KeyBytes(script, at), rs.decisionMask, rs.ifMask);
            R.ResolveRest(rs, script[at..]) ==
            if item in rs.keys then Err(R.AmbiguousKey)
            else if |rs.keys| >= MAX_COVENANT_BRANCH_KEYS then Err(R.BranchResolveError.TooManyKeys)
            else R.ResolveRest(rs.(keys := rs.keys + [item]), script[at + 34..])
  {
    hide AllBindings, Emit, OpenBindings, Bindings, PathDecisions, PathIfs, WellNestedOpen, WellNested;
    var rest := script[at..];
    var item := R.BranchKey(KeyBytes(script, at), rs.decisionMask, rs.ifMask);
    assert IsKeyCheck(rest, 0) && rest[1..33] == item.key;
    assert rest[33..] == script[at + 33..] && rest[33..][1..] == script[at + 34..];
    assert KeyOffsets(script, at + 33) == KeyOffsets(script, at + 34);
    assert R.Step(rs, rest) == match R.PushKey(rs, item)
                               case Ok(next) => Ok((next, 33))
                               case Err(e) => Err(e);
    var next := rs.(keys := rs.keys + [item]);
    assert R.Step(next, rest[33..]) == Ok((next, 1));
  }

  /** How the resolver's answer follows the parser's, from keys `keys` on:
      `end` is the state that would follow if repeated keys were let through. */
  ghost predicate Follows(script: seq<byte>, at: nat, keys: seq<R.BranchKey>, end: R.ResolverState,
                          parsed: Result<ParseState, ExecutionError>,
                          resolved: Result<R.ResolverState, R.BranchResolveError>)
    requires at <= |script|
  {
    var offsets := KeyOffsets(script, at);
    match parsed
    case Err(f) => resolved.Err? && (resolved.error.AmbiguousKey? || SameError(resolved.error, f))
    case Ok(ps) =>
      && Mirrors(ps, end)
      && |end.keys| == |keys| + |offsets| && keys == end.keys[..|keys|]
      && (forall p :: 0 <= p < |offsets| ==>
            end.keys[|keys| + p].key == KeyBytes(script, offsets[p]))
      && (Distinct(end.keys) ==> resolved == Ok(end))
      && (Distinct(keys) && !Distinct(end.keys) ==> resolved == Err(R.AmbiguousKey))
  }

  lemma FollowsKey(script: seq<byte>, at: nat, keys: seq<R.BranchKey>, item: R.BranchKey, end: R.ResolverState,
                   parsed: Result<ParseState, ExecutionError>,
                   later: Result<R.ResolverState, R.BranchResolveError>)
    requires at + 34 <= |script| && item.key == KeyBytes(script, at)
    requires KeyOffsets(script, at) == [at] + KeyOffsets(script, at + 34)
    requires Follows(script, at + 34, keys + [item], end, parsed, later)
    ensures Follows(script, at, keys, end, parsed, if item in keys then Err(R.AmbiguousKey) else later)
  {
    hide Mirrors, KeyOffsets, KeyBytes;
    KeysGrow(keys, item, end.keys);
    if parsed.Ok? {
      var offsets := KeyOffsets(script, at);
      assert end.keys[|keys|] == end.keys[..|keys| + 1][|keys|] == item;
      assert forall p :: 0 < p < |offsets| ==> offsets[p] == KeyOffsets(script, at + 34)[p - 1];
    }
  }

  /** Whatever the tree parser accepts drives the resolver, from mirrored
      states, to the mirrored end; the resolver refuses only repeated keys. */
  lemma {:induction false} ParsersAgreeFrom(script: seq<byte>, at: nat, ps: ParseState, rs: R.ResolverState)
    returns (end: R.ResolverState)
    requires at <= |script| && Mirrors(ps, rs)
    ensures Follows(script, at, rs.keys, end, ParseFrom(script, ps, at), R.ResolveRest(rs, script[at..]))
    decreases |script| - at
  {
    hide Mirrors, AllBindings, Emit, ParseElement, R.Step, Distinct, Follows, KeyOffsets, KeyBytes;
    end := rs;
    if at == |script| {
      FollowsNothing(script, ps, rs);
    } else if script[at] == OP_DATA_32 && IsKeyCheck(script, at) {
      var item := R.BranchKey(KeyBytes(script, at), rs.decisionMask, rs.ifMask);
      KeyElement(script, at, ps, rs);
      if |rs.keys| < MAX_COVENANT_BRANCH_KEYS {
        var verify := script[at + 33] == OP_CHECKSIGVERIFY;
        KeyMirrors(ps, rs, item.key, verify);
        var next, mirror := Emit(ps, KeyCheck(ps.nextKey, verify)).(nextKey := ps.nextKey + 1), rs.(keys := rs.keys + [item]);
        end := ParsersAgreeFrom(script, at + 34, next, mirror);
        FollowsKey(script, at, rs.keys, item, end, ParseFrom(script, next, at + 34), R.ResolveRest(mirror, script[at + 34..]));
      } else {
        FollowsError(script, at, rs.keys, end, TooManyKeys, R.ResolveRest(rs, script[at..]).error);
      }
    } else {
      StepMirrors(script, at, ps, rs);
      var parsed, rest := ParseElement(script, ps, at), script[at..];
      if parsed.Ok? {
        var step := R.Step(rs, rest).value;
        assert rest[step.1..] == script[at + step.1..];
        end := ParsersAgreeFrom(script, at + step.1, parsed.value.0, step.0);
        FollowsStep(script, at, at + step.1, rs.keys, end, ParseFrom(script, ps, at), R.ResolveRest(rs, rest));
      } else {
        FollowsError(script, at, rs.keys, end, parsed.error, R.Step(rs, rest).error);
      }
    }
  }

  lemma FollowsNothing(script: seq<byte>, ps: ParseState, rs: R.ResolverState)
    requires Mirrors(ps, rs)
    ensures Follows(script, |script|, rs.keys, rs, Ok(ps), Ok(rs))
  {
    hide Mirrors;
  }

  lemma FollowsError(script: seq<byte>, at: nat, keys: seq<R.BranchKey>, end: R.ResolverState,
                     f: ExecutionError, e: R.BranchResolveError)
    requires at <= |script| && (e.AmbiguousKey? || SameError(e, f))
    ensures Follows(script, at, keys, end, Err(f), Err(e))
  {
  }

  lemma FollowsStep(script: seq<byte>, at: nat, next: nat, keys: seq<R.BranchKey>, end: R.ResolverState,
                    parsed: Result<ParseState, ExecutionError>, resolved: Result<R.ResolverState, R.BranchResolveError>)
    requires at <= |script| && next <= |script| && KeyOffsets(script, at) == KeyOffsets(script, next)
    requires Follows(script, next, keys, end, parsed, resolved)
    ensures Follows(script, at, keys, end, parsed, resolved)
  {
    hide Mirrors, Distinct;
  }

  lemma KeysGrow(before: seq<R.BranchKey>, item: R.BranchKey, end: seq<R.BranchKey>)
    ensures Distinct(before) && item !in before ==> Distinct(before + [item])
    ensures |before| < |end| && before + [item] == end[..|before| + 1] ==>
              before == end[..|before|] && (item in before ==> !Distinct(end))
  {
    if |before| < |end| && before + [item] == end[..|before| + 1] && item in before {
      var k :| 0 <= k < |before| && before[k] == item;
      assert end[k] == end[..|before| + 1][k] == item && end[|before|] == end[..|before| + 1][|before|] == item;
    }
  }

  // ----- Main results -----

  /** The keys of `script` in script order, bytes and path together. */
  function KeysWithPaths(script: seq<byte>, bindings: seq<Binding>): seq<R.BranchKey>
    requires |bindings| == |KeyOffsets(script, 0)|
  {
    seq(|bindings|, p requires 0 <= p < |bindings| =>
      R.BranchKey(KeyBytes(script, KeyOffsets(script, 0)[p]), bindings[p].decisions, bindings[p].ifs))
  }

  lemma StartMirrors()
    ensures Mirrors(START, R.START) && AllBindings(START) == []
  {
    assert Bindings([], {}, {}) == [];
  }

  /** Both walks from the start of the script. */
  lemma ParsersAgreeFromStart(script: seq<byte>) returns (end: R.ResolverState)
    ensures Follows(script, 0, [], end, ParseFrom(script, START, 0), R.ResolveRest(R.START, script))
  {
    hide Mirrors, Follows, ParseFrom, R.ResolveRest, AllBindings;
    assert script[0..] == script;
    StartMirrors();
    end := ParsersAgreeFrom(script, 0, START, R.START);
  }

  /** The tree numbers its keys 0, 1, ... in script order, one for each 32-byte
      push directly followed by a signature check. */
  lemma TreeNumbersKeys(script: seq<byte>)
    ensures Parse(script).Ok? ==>
              var bindings := Bindings(Parse(script).value.0, {}, {});
              && |bindings| == |KeyOffsets(script, 0)|
              && (forall p :: 0 <= p < |bindings| ==> bindings[p].position == p)
              && WellNested(Parse(script).value.0, {})
  {
    hide Bindings, WellNested;
    var end := ParsersAgreeFromStart(script);
    var parsed := ParseFrom(script, START, 0);
    if parsed.Ok? && parsed.value.open == [] {
      assert AllBindings(parsed.value) == Bindings(parsed.value.root, {}, {});
    }
  }

  lemma ParsersAgreeOnRefusal(script: seq<byte>)
    ensures R.Resolve(script).Ok? ==> Parse(script).Ok?
    ensures Parse(script).Err? ==>
              var error := R.Resolve(script).error;
              error.AmbiguousKey? || SameError(error, Parse(script).error)
  {
    hide Bindings, WellNested, ParseFrom, R.ResolveRest, KeyBytes;
    assert Distinct([]);
    var end := ParsersAgreeFromStart(script);
  }

  lemma ParsersAgreeOnTrees(script: seq<byte>)
    requires Parse(script).Ok?
    ensures var bindings := Bindings(Parse(script).value.0, {}, {});
            && |bindings| == |KeyOffsets(script, 0)|
            && R.Resolve(script) == if Distinct(KeysWithPaths(script, bindings))
               then Ok(R.BranchResolution(KeysWithPaths(script, bindings), Parse(script).value.1))
               else Err(R.AmbiguousKey)
  {
    hide Bindings, ParseFrom, R.ResolveRest, Follows, Distinct, KeysWithPaths;
    var end := ParsersAgreeFromStart(script);
    ClosedFollows(script, end, ParseFrom(script, START, 0).value, R.ResolveRest(R.START, script));
  }

  /** When every branch is closed, the keys that would be there are the tree's. */
  lemma ClosedFollows(script: seq<byte>, end: R.ResolverState, parsed: ParseState,
                      resolved: Result<R.ResolverState, R.BranchResolveError>)
    requires Follows(script, 0, [], end, Ok(parsed), resolved) && parsed.open == []
    ensures end.frames == [] && end.selectorMask == Below(parsed.nextBranch)
    ensures var bindings := Bindings(parsed.root, {}, {});
            && |bindings| == |KeyOffsets(script, 0)| && KeysWithPaths(script, bindings) == end.keys
    ensures resolved == if Distinct(end.keys) then Ok(end) else Err(R.AmbiguousKey)
  {
    hide Bindings, WellNested, KeyBytes, KeyOffsets;
    assert Distinct([]);
    var bindings := Bindings(parsed.root, {}, {});
    assert AllBindings(parsed) == bindings;
  }

  /** The resolver accepts a script exactly when the tree parser does and no two
      of its keys share both bytes and path; both then see the same keys on the
      same paths and the same selectors. A refusal has the same reason in both
      unless the resolver met a repeated key first. */
  lemma ParsersAgree(script: seq<byte>)
    ensures R.Resolve(script).Ok? ==> Parse(script).Ok?
    ensures Parse(script).Err? ==>
              var error := R.Resolve(script).error;
              error.AmbiguousKey? || SameError(error, Parse(script).error)
    ensures Parse(script).Ok? ==>
              var bindings := Bindings(Parse(script).value.0, {}, {});
              && |bindings| == |KeyOffsets(script, 0)|
              && R.Resolve(script) == if Distinct(KeysWithPaths(script, bindings))
                 then Ok(R.BranchResolution(KeysWithPaths(script, bindings), Parse(script).value.1))
                 else Err(R.AmbiguousKey)
  {
    hide Bindings, Distinct, KeysWithPaths, Parse, R.Resolve;
    ParsersAgreeOnRefusal(script);
    if Parse(script).Ok? { ParsersAgreeOnTrees(script); }
  }
}
