/** What the script of the Merkle vault computes on a stack
    (src/contract/merkle/script.rs), and what spending the vault takes. */
module MerkleMachine {
  import opened Common
  import Bits
  import opened ContractOpcodes
  import opened ScriptElements
  import opened ScriptNumber
  import opened ScriptMachine
  import opened MerkleTree
  import opened MerkleScript

  // ----- One level -----

  /** What a level makes of the stack: sibling, direction, node become a node. */
  function LayerStep(h: HashFunction, items: seq<Bytes>, node: Bytes): Option<(seq<Bytes>, Bytes)> {
    var n := |items|;
    if n < 2 then None
    else if items[n - 1] == TRUE then Some((items[..n - 2], h(node + items[n - 2])))
    else if items[n - 1] == FALSE then Some((items[..n - 2], h(items[n - 2] + node)))
    else None
  }

  function Stacked(r: Option<(seq<Bytes>, Bytes)>): Option<seq<Bytes>> {
    match r case None => None case Some((items, node)) => Some(items + [node])
  }

  /** The code of a level as a tree. */
  function LayerTree(): seq<Code> {
    [Do(OpElement(OP_SWAP)), Branch([Do(OpElement(OP_SWAP))], []), Do(OpElement(OP_CAT)), Do(OpElement(OP_BLAKE2B))]
  }

  lemma LayerIsFlat()
    ensures Flat(LayerTree()) == LAYER && Structured(LayerTree())
  {
    var t := LayerTree();
    var swap := Plain([OpElement(OP_SWAP)]);
    var hash := Plain([OpElement(OP_CAT), OpElement(OP_BLAKE2B)]);
    PlainFlat([OpElement(OP_SWAP)]);
    PlainFlat([OpElement(OP_CAT), OpElement(OP_BLAKE2B)]);
    assert swap == [Do(OpElement(OP_SWAP))] && hash == [Do(OpElement(OP_CAT)), Do(OpElement(OP_BLAKE2B))];
    assert t == swap + ([Branch(swap, [])] + hash);
    FlatAppend([Branch(swap, [])], hash);
    FlatAppend(swap, [Branch(swap, [])] + hash);
    BranchFlat(swap, []);
    FlatFirst([Branch(swap, [])]);
    assert [Branch(swap, [])][1..] == [];
  }

  /** `SWAP IF SWAP ENDIF`: orders sibling and node by the direction below the node. */
  lemma Ordering(tx: Spending, items: seq<Bytes>, node: Bytes)
    ensures var n := |items|;
            Run(tx, [Do(OpElement(OP_SWAP)), Branch([Do(OpElement(OP_SWAP))], [])], items + [node])
            == if n == 0 then None
               else if items[n - 1] == TRUE then
                 (if n == 1 then None else Some(items[..n - 2] + [node] + [items[n - 2]]))
               else if items[n - 1] == FALSE then Some(items[..n - 1] + [node])
               else None
  {
    hide Operate;
    var swap, n := OpElement(OP_SWAP), |items|;
    var branch := Branch([Do(swap)], []);
    assert [Do(swap), branch] == [Do(swap)] + [branch];
    RunAppend(tx, [Do(swap)], [branch], items + [node]);
    RunAlone(tx, Do(swap), items + [node]);
    if n == 0 {
      assert items + [node] == [] + [node];
      SwapAlone(tx, node);
    } else {
      var below, direction := items[..n - 1], items[n - 1];
      assert items + [node] == below + [direction] + [node];
      OnTwo(tx, OP_SWAP, below, direction, node);
      assert below + [node, direction] == below + [node] + [direction];
      RunAlone(tx, branch, below + [node] + [direction]);
      TopOf(below + [node], direction);
      RunNothing(tx, below + [node]);
      RunAlone(tx, Do(swap), below + [node]);
      if n == 1 {
        assert below + [node] == [] + [node];
        SwapAlone(tx, node);
      } else {
        var base, sibling := items[..n - 2], items[n - 2];
        assert below + [node] == base + [sibling] + [node];
        OnTwo(tx, OP_SWAP, base, sibling, node);
        assert base + [node, sibling] == base + [node] + [sibling];
      }
    }
  }

  lemma SwapAlone(tx: Spending, node: Bytes)
    ensures Operate(tx, OpElement(OP_SWAP), [] + [node]) == None
    ensures Operate(tx, OpElement(OP_CAT), [] + [node]) == None
  {
    TopOf([], node);
  }

  /** `CAT BLAKE2B`. */
  lemma CatHash(tx: Spending, base: seq<Bytes>, x: Bytes, y: Bytes)
    ensures Run(tx, Plain([OpElement(OP_CAT), OpElement(OP_BLAKE2B)]), base + [x] + [y]) == Some(base + [tx.hash(x + y)])
  {
    hide Operate;
    PlainTwo(tx, OpElement(OP_CAT), OpElement(OP_BLAKE2B), base + [x] + [y]);
    OnTwo(tx, OP_CAT, base, x, y);
    OnTop(tx, OP_BLAKE2B, base, x + y);
  }

  lemma CatAlone(tx: Spending, x: Bytes)
    ensures Run(tx, Plain([OpElement(OP_CAT), OpElement(OP_BLAKE2B)]), [] + [x]) == None
  {
    hide Operate;
    PlainTwo(tx, OpElement(OP_CAT), OpElement(OP_BLAKE2B), [] + [x]);
    SwapAlone(tx, x);
  }

  lemma LayerCode(tx: Spending, items: seq<Bytes>, node: Bytes)
    ensures Run(tx, LayerTree(), items + [node]) == Stacked(LayerStep(tx.hash, items, node))
  {
    hide Run, Plain;
    var order := [Do(OpElement(OP_SWAP)), Branch([Do(OpElement(OP_SWAP))], [])];
    var hash := Plain([OpElement(OP_CAT), OpElement(OP_BLAKE2B)]);
    assert LayerTree() == order + hash;
    RunAppend(tx, order, hash, items + [node]);
    Ordering(tx, items, node);
    var n := |items|;
    if n == 1 && items[0] == FALSE {
      assert items[..0] == [];
      CatAlone(tx, node);
    } else if n >= 2 {
      CatHash(tx, items[..n - 2], node, items[n - 2]);
      CatHash(tx, items[..n - 2], items[n - 2], node);
      assert items[..n - 1] == items[..n - 2] + [items[n - 2]];
    }
  }

  // ----- All levels -----

  /** The proof in the top items of a stack, first level on top. */
  function TakeProof(items: seq<Bytes>, depth: nat): Option<(seq<Bytes>, seq<MerkleTree.Step>)> {
    if depth == 0 then Some((items, []))
    else if |items| < 2 || items[|items| - 1] !in {TRUE, FALSE} then None
    else
      var step := MerkleTree.Step(items[|items| - 2], items[|items| - 1] == TRUE);
      var (base, rest) :- TakeProof(items[..|items| - 2], depth - 1);
      Some((base, [step] + rest))
  }

  /** The items a proof is pushed as. */
  function Items(proof: seq<MerkleTree.Step>): seq<Bytes> {
    if proof == [] then []
    else Items(proof[1..]) + [proof[0].sibling, if proof[0].left then TRUE else FALSE]
  }

  lemma TakeFirst(rest: seq<Bytes>, step: MerkleTree.Step, depth: nat)
    ensures TakeProof(rest + [step.sibling, if step.left then TRUE else FALSE], depth + 1)
         == match TakeProof(rest, depth) case None => None case Some((base, proof)) => Some((base, [step] + proof))
  {
    var items := rest + [step.sibling, if step.left then TRUE else FALSE];
    assert items[..|items| - 2] == rest;
  }

  lemma {:induction false} ItemsTakenBack(base: seq<Bytes>, proof: seq<MerkleTree.Step>)
    ensures TakeProof(base + Items(proof), |proof|) == Some((base, proof))
    decreases proof
  {
    if proof == [] {
      assert base + [] == base;
    } else {
      var rest := base + Items(proof[1..]);
      assert base + Items(proof) == rest + [proof[0].sibling, if proof[0].left then TRUE else FALSE];
      hide Items, TakeProof;
      ItemsTakenBack(base, proof[1..]);
      TakeFirst(rest, proof[0], |proof| - 1);
      assert [proof[0]] + proof[1..] == proof;
    }
  }

  function LayersTree(depth: nat): seq<Code> {
    if depth == 0 then [] else LayerTree() + LayersTree(depth - 1)
  }

  lemma {:induction false} LayersFromFirst(depth: nat)
    requires depth > 0
    ensures Layers(depth) == LAYER + Layers(depth - 1)
  {
    if depth == 1 {
      assert Layers(0) == [];
      assert [] + LAYER == LAYER + [];
    } else {
      LayersFromFirst(depth - 1);
      assert LAYER + Layers(depth - 2) + LAYER == LAYER + (Layers(depth - 2) + LAYER);
    }
  }

  lemma {:induction false} LayersAreFlat(depth: nat)
    ensures Flat(LayersTree(depth)) == Layers(depth) && Structured(LayersTree(depth))
  {
    hide LAYER;
    if depth > 0 {
      LayersAreFlat(depth - 1);
      LayersFromFirst(depth);
      LayerIsFlat();
      hide Flat, Structured, LayerTree;
      FlatAppend(LayerTree(), LayersTree(depth - 1));
    }
  }

  /** What is left when the proof on the stack has been folded into the node. */
  function Folded(h: HashFunction, items: seq<Bytes>, depth: nat, node: Bytes): Option<seq<Bytes>> {
    match TakeProof(items, depth)
    case None => None
    case Some((base, proof)) => Some(base + [Fold(h, node, proof)])
  }

  /** What is left when that proof leads from the destination to the root. */
  function Proved(h: HashFunction, root: Bytes, items: seq<Bytes>, depth: nat, destination: Bytes): Option<seq<Bytes>> {
    match TakeProof(items, depth)
    case None => None
    case Some((base, proof)) => if Fold(h, h(destination), proof) == root then Some(base) else None
  }

  /** The level code folds the proof it finds on the stack, and fails when it
      finds none. */
  lemma {:induction false} LayersFold(tx: Spending, depth: nat, items: seq<Bytes>, node: Bytes)
    ensures Run(tx, LayersTree(depth), items + [node])
              == Folded(tx.hash, items, depth, node)
    decreases depth
  {
    hide Run, LayerTree, Fold;
    if depth == 0 {
      RunNothing(tx, items + [node]);
      FoldNothing(tx.hash, node);
    } else {
      RunAppend(tx, LayerTree(), LayersTree(depth - 1), items + [node]);
      LayerCode(tx, items, node);
      if |items| >= 2 && items[|items| - 1] in {TRUE, FALSE} {
        var step := MerkleTree.Step(items[|items| - 2], items[|items| - 1] == TRUE);
        var rest := items[..|items| - 2];
        LayersFold(tx, depth - 1, rest, Combine(tx.hash, node, step));
        var taken := TakeProof(rest, depth - 1);
        if taken.Some? { FoldFirst(tx.hash, node, step, taken.value.1); }
      }
    }
  }

  lemma FoldNothing(h: HashFunction, node: Bytes)
    ensures Fold(h, node, []) == node
  {
  }

  lemma FoldFirst(h: HashFunction, node: Bytes, step: MerkleTree.Step, rest: seq<MerkleTree.Step>)
    ensures Fold(h, node, [step] + rest) == Fold(h, Combine(h, node, step), rest)
  {
    assert ([step] + rest)[1..] == rest;
  }

  /** As elements, wherever they are executed: one level. */
  lemma LayerExecutes(tx: Spending, items: seq<Bytes>, node: Bytes, conds: seq<bool>)
    requires Executing(conds)
    ensures Execute(tx, LAYER, Machine(items + [node], conds)) == On(Stacked(LayerStep(tx.hash, items, node)), conds)
  {
    hide Execute, Run, Flat, Structured;
    LayerIsFlat();
    LayerCode(tx, items, node);
    TreeRuns(tx, LayerTree(), Machine(items + [node], conds));
  }

  /** And all levels. */
  lemma LayersExecute(tx: Spending, depth: nat, items: seq<Bytes>, node: Bytes, conds: seq<bool>)
    requires Executing(conds)
    ensures Execute(tx, Layers(depth), Machine(items + [node], conds))
              == On(Folded(tx.hash, items, depth, node), conds)
  {
    hide Execute, Run, Flat, Structured, TakeProof, Fold;
    LayersAreFlat(depth);
    LayersFold(tx, depth, items, node);
    TreeRuns(tx, LayersTree(depth), Machine(items + [node], conds));
  }

  // ----- The membership check -----

  function MembershipTree(root: Bytes32, depth: nat): seq<Code> {
    Plain([OpElement(OP_BLAKE2B)]) + LayersTree(depth) + Plain([DataElement(root), OpElement(OP_EQUALVERIFY)])
  }

  lemma MembershipIsFlat(root: Bytes32, depth: nat)
    ensures Flat(MembershipTree(root, depth)) == Membership(root, depth) && Structured(MembershipTree(root, depth))
  {
    hide Flat, Structured, Layers, LayersTree, Plain;
    var compare := [DataElement(root), OpElement(OP_EQUALVERIFY)];
    PlainFlat([OpElement(OP_BLAKE2B)]);
    PlainFlat(compare);
    LayersAreFlat(depth);
    FlatAppend(Plain([OpElement(OP_BLAKE2B)]), LayersTree(depth));
    FlatAppend(Plain([OpElement(OP_BLAKE2B)]) + LayersTree(depth), Plain(compare));
  }

  /** `<root> EQUALVERIFY`. */
  lemma CompareRoot(tx: Spending, base: seq<Bytes>, node: Bytes, root: Bytes32)
    ensures Run(tx, Plain([DataElement(root), OpElement(OP_EQUALVERIFY)]), base + [node])
              == if node == root then Some(base) else None
  {
    hide Operate;
    PlainTwo(tx, DataElement(root), OpElement(OP_EQUALVERIFY), base + [node]);
    Pushing(tx, DataElement(root), base + [node]);
    DataBytes(root);
    OnTwo(tx, OP_EQUALVERIFY, base, node, root);
    assert base + [] == base;
  }

  /** The whole check on a stack that ends with a proof and a destination: it
      passes exactly when the proof leads from the destination to the root. */
  lemma MembershipCode(tx: Spending, root: Bytes32, depth: nat, items: seq<Bytes>, destination: Bytes)
    ensures Run(tx, MembershipTree(root, depth), items + [destination])
              == Proved(tx.hash, root, items, depth, destination)
  {
    hide Run, Fold, TakeProof, LayersTree, Plain;
    var first, levels := Plain([OpElement(OP_BLAKE2B)]), LayersTree(depth);
    var tail := Plain([DataElement(root), OpElement(OP_EQUALVERIFY)]);
    RunAppend(tx, first + levels, tail, items + [destination]);
    RunAppend(tx, first, levels, items + [destination]);
    PlainOne(tx, OpElement(OP_BLAKE2B), items + [destination]);
    OnTop(tx, OP_BLAKE2B, items, destination);
    LayersFold(tx, depth, items, tx.hash(destination));
    var taken := TakeProof(items, depth);
    if taken.Some? {
      CompareRoot(tx, taken.value.0, Fold(tx.hash, tx.hash(destination), taken.value.1), root);
    }
  }

  /** The same as elements, wherever they are executed. */
  lemma MembershipExecutes(tx: Spending, root: Bytes32, depth: nat, items: seq<Bytes>, destination: Bytes, conds: seq<bool>)
    requires Executing(conds)
    ensures Execute(tx, Membership(root, depth), Machine(items + [destination], conds))
              == On(Proved(tx.hash, root, items, depth, destination), conds)
  {
    hide Execute, Run, Flat, Structured, TakeProof, Fold, Membership;
    MembershipIsFlat(root, depth);
    MembershipCode(tx, root, depth, items, destination);
    TreeRuns(tx, MembershipTree(root, depth), Machine(items + [destination], conds));
  }

  /** Every listed destination passes with its generated proof. */
  lemma ListedDestinationsPass(tx: Spending, leaves: seq<Bytes>, index: nat, base: seq<Bytes>)
    requires Hashes32(tx.hash) && index < |leaves|
    ensures |MerkleRoot(tx.hash, leaves)| == 32
    ensures Execute(tx, Membership(MerkleRoot(tx.hash, leaves), Depth(|leaves|)),
                    Machine(base + Items(MerkleProof(tx.hash, leaves, index)) + [leaves[index]], []))
              == Some(Machine(base, []))
  {
    hide Execute, Membership, TakeProof, Items, MerkleProof, MerkleRoot, Fold;
    RootIs32(tx.hash, leaves);
    var root, proof := MerkleRoot(tx.hash, leaves), MerkleProof(tx.hash, leaves, index);
    GeneratedProofsHold(tx.hash, leaves, index);
    ItemsTakenBack(base, proof);
    MembershipExecutes(tx, root, Depth(|leaves|), base + Items(proof), leaves[index], []);
  }

  lemma RootIs32(h: HashFunction, leaves: seq<Bytes>)
    requires Hashes32(h)
    ensures |MerkleRoot(h, leaves)| == 32
  {
    if leaves != [] {
      var level, k := Padded(h, leaves), Depth(|leaves|);
      if k == 0 { assert Bits.Pow2(0) == 1; }
    }
  }

  /** Whatever passes against the committed root is a listed destination, at the
      place its proof names, unless it breaks the hash: two inputs with one hash,
      or an input with the zero hash of the padding. */
  lemma OnlyListedDestinationsPass(tx: Spending, leaves: seq<Bytes>, items: seq<Bytes>, destination: Bytes)
    requires Hashes32(tx.hash) && leaves != []
    requires |MerkleRoot(tx.hash, leaves)| == 32
    requires Execute(tx, Membership(MerkleRoot(tx.hash, leaves), Depth(|leaves|)), Machine(items + [destination], [])).Some?
    ensures var taken := TakeProof(items, Depth(|leaves|));
            && taken.Some? && |taken.value.1| == Depth(|leaves|)
            && ListedOrBroken(tx.hash, leaves, destination, taken.value.1)
  {
    hide Execute, Membership, MerkleRoot, Fold, ListedOrBroken;
    var root, depth := MerkleRoot(tx.hash, leaves), Depth(|leaves|);
    MembershipExecutes(tx, root, depth, items, destination, []);
    TakenLength(items, depth);
    hide TakeProof;
    ProvedIsListed(tx.hash, leaves, destination, TakeProof(items, depth).value.1);
  }

  /** The destination is the leaf its proof names, or the hash is broken. */
  predicate ListedOrBroken(h: HashFunction, leaves: seq<Bytes>, destination: Bytes, proof: seq<MerkleTree.Step>)
    requires leaves != [] && |proof| == Depth(|leaves|)
  {
    || (IndexOf(proof) < |leaves| && destination == leaves[IndexOf(proof)])
    || Collision(h, Forgery(h, leaves, destination, proof))
    || h(destination) == ZERO_HASH
  }

  lemma ProvedIsListed(h: HashFunction, leaves: seq<Bytes>, destination: Bytes, proof: seq<MerkleTree.Step>)
    requires Hashes32(h) && leaves != [] && |proof| == Depth(|leaves|)
    requires Fold(h, h(destination), proof) == MerkleRoot(h, leaves)
    ensures ListedOrBroken(h, leaves, destination, proof)
  {
    hide Fold, Forgery, IndexOf, MerkleRoot;
    OnlyLeavesAreProved(h, leaves, destination, proof);
  }

  lemma {:induction false} TakenLength(items: seq<Bytes>, depth: nat)
    ensures TakeProof(items, depth).Some? ==> |TakeProof(items, depth).value.1| == depth
    decreases depth
  {
    if depth > 0 && |items| >= 2 { TakenLength(items[..|items| - 2], depth - 1); }
  }

  // ----- The whole vault -----

  function RefundTree(f: Fields): seq<Code> {
    Plain([DataElement(f.owner), OpElement(OP_CHECKSIGVERIFY)])
    + Plain([IntElement(f.locktime), OpElement(OP_CHECKLOCKTIMEVERIFY), OpElement(OP_1)])
  }

  function WhitelistTree(f: Fields): seq<Code> {
    Plain([DataElement(f.owner), OpElement(OP_CHECKSIGVERIFY)]) + MembershipTree(f.root, f.depth)
    + Plain([IntElement(0), OpElement(OP_TX_OUTPUT_SPK), OpElement(OP_EQUALVERIFY), OpElement(OP_1)])
  }

  lemma RefundIsFlat(f: Fields)
    ensures Refund(f) == [OpElement(OP_IF)] + Flat(RefundTree(f)) + [OpElement(OP_ELSE)] && Structured(RefundTree(f))
  {
    hide Flat, Structured, Plain, IntElement;
    var check := [DataElement(f.owner), OpElement(OP_CHECKSIGVERIFY)];
    var lock := [IntElement(f.locktime), OpElement(OP_CHECKLOCKTIMEVERIFY), OpElement(OP_1)];
    NumberBytes(f.locktime);
    DataBytes(f.owner);
    PlainFlat(check);
    PlainFlat(lock);
    FlatAppend(Plain(check), Plain(lock));
  }

  lemma WhitelistIsFlat(f: Fields)
    ensures Flat(WhitelistTree(f)) == Whitelist(f) && Structured(WhitelistTree(f)) && WhitelistTree(f) != []
  {
    hide Flat, Structured, MembershipTree, Membership, IntElement;
    var check := [DataElement(f.owner), OpElement(OP_CHECKSIGVERIFY)];
    var pay := [IntElement(0), OpElement(OP_TX_OUTPUT_SPK), OpElement(OP_EQUALVERIFY), OpElement(OP_1)];
    NumberBytes(0);
    DataBytes(f.owner);
    PlainFlat(check);
    PlainFlat(pay);
    MembershipIsFlat(f.root, f.depth);
    FlatAppend(Plain(check), MembershipTree(f.root, f.depth));
    FlatAppend(Plain(check) + MembershipTree(f.root, f.depth), Plain(pay));
  }

  lemma VaultIsFlat(f: Fields)
    ensures Flat([Branch(RefundTree(f), WhitelistTree(f))]) == Template(f)
    ensures Structured([Branch(RefundTree(f), WhitelistTree(f))])
  {
    hide Flat, Structured, RefundTree, WhitelistTree, Refund, Whitelist;
    RefundIsFlat(f);
    WhitelistIsFlat(f);
    BranchFlat(RefundTree(f), WhitelistTree(f));
    StructuredBranch(RefundTree(f), WhitelistTree(f));
  }

  /** `<locktime> CHECKLOCKTIMEVERIFY 1`. */
  lemma LockAndSucceed(tx: Spending, locktime: uint64, base: seq<Bytes>)
    ensures Run(tx, Plain([IntElement(locktime), OpElement(OP_CHECKLOCKTIMEVERIFY), OpElement(OP_1)]), base)
         == if tx.reached(locktime) then Some(base + [TRUE]) else None
  {
    hide Operate, Run, IntElement;
    var lock := [IntElement(locktime), OpElement(OP_CHECKLOCKTIMEVERIFY)];
    assert lock + [OpElement(OP_1)] == [IntElement(locktime), OpElement(OP_CHECKLOCKTIMEVERIFY), OpElement(OP_1)];
    PlainNext(tx, lock, OpElement(OP_1), base);
    CheckLock(tx, locktime, base);
    Pushing(tx, OpElement(OP_1), base);
  }

  /** `0 OUTPUT_SPK EQUALVERIFY 1`: the item on top is where output zero goes. */
  lemma PayAndSucceed(tx: Spending, base: seq<Bytes>)
    ensures Run(tx, Plain([IntElement(0), OpElement(OP_TX_OUTPUT_SPK), OpElement(OP_EQUALVERIFY), OpElement(OP_1)]), base)
         == if tx.outputs != [] && base != [] && base[|base| - 1] == tx.outputs[0].spk
            then Some(base[..|base| - 1] + [TRUE]) else None
  {
    hide Operate, IntElement, Minimal;
    NumberBytes(0);
    PlainFour(tx, IntElement(0), OpElement(OP_TX_OUTPUT_SPK), OpElement(OP_EQUALVERIFY), OpElement(OP_1), base);
    Pushing(tx, IntElement(0), base);
    LookingUp(tx, OP_TX_OUTPUT_SPK, base, 0);
    if tx.outputs != [] {
      var spk := tx.outputs[0].spk;
      if base == [] {
        OneIsTooFew(tx, spk);
      } else {
        var below := base[..|base| - 1];
        assert base + [spk] == below + [base[|base| - 1]] + [spk];
        OnTwo(tx, OP_EQUALVERIFY, below, base[|base| - 1], spk);
        assert below + [] == below;
        Pushing(tx, OpElement(OP_1), below);
      }
    }
  }

  /** The owner takes the vault back after its locktime. */
  predicate OwnerRefunds(tx: Spending, f: Fields, offered: seq<Bytes>) {
    var n := |offered|;
    n >= 2 && offered[n - 1] == TRUE && tx.signed(offered[n - 2], f.owner) && tx.reached(f.locktime)
  }

  /** The owner signs, the item above the signature's place is proved to be in the
      tree, and output zero goes where the item below the proof says. */
  predicate OwnerPays(tx: Spending, f: Fields, offered: seq<Bytes>) {
    var n := |offered|;
    && n >= 3 && offered[n - 1] == FALSE && tx.signed(offered[n - 2], f.owner)
    && var taken := TakeProof(offered[..n - 3], f.depth);
       && taken.Some?
       && Fold(tx.hash, tx.hash(offered[n - 3]), taken.value.1) == f.root
       && var base := taken.value.0;
          base != [] && tx.outputs != [] && base[|base| - 1] == tx.outputs[0].spk
  }

  lemma RefundRuns(tx: Spending, f: Fields, below: seq<Bytes>)
    ensures var n := |below|;
            Run(tx, RefundTree(f), below)
            == if n >= 1 && tx.signed(below[n - 1], f.owner) && tx.reached(f.locktime) then Some(below[..n - 1] + [TRUE]) else None
  {
    hide Run, Plain, IntElement;
    var check := Plain([DataElement(f.owner), OpElement(OP_CHECKSIGVERIFY)]);
    var lock := Plain([IntElement(f.locktime), OpElement(OP_CHECKLOCKTIMEVERIFY), OpElement(OP_1)]);
    RunAppend(tx, check, lock, below);
    if below == [] {
      CheckKey(tx, f.owner, [], []);
    } else {
      var n := |below|;
      assert below == below[..n - 1] + [below[n - 1]];
      CheckKey(tx, f.owner, below[..n - 1], below[n - 1]);
      LockAndSucceed(tx, f.locktime, below[..n - 1]);
    }
  }

  lemma WhitelistRuns(tx: Spending, f: Fields, below: seq<Bytes>)
    ensures var r := Run(tx, WhitelistTree(f), below);
            && (r.Some? <==> OwnerPays(tx, f, below + [FALSE]))
            && (r.Some? ==> r.value != [] && r.value[|r.value| - 1] == TRUE)
  {
    hide Run, Plain, IntElement, Fold, TakeProof, MembershipTree;
    var check := Plain([DataElement(f.owner), OpElement(OP_CHECKSIGVERIFY)]);
    var member := MembershipTree(f.root, f.depth);
    var pay := Plain([IntElement(0), OpElement(OP_TX_OUTPUT_SPK), OpElement(OP_EQUALVERIFY), OpElement(OP_1)]);
    RunAppend(tx, check + member, pay, below);
    RunAppend(tx, check, member, below);
    var n := |below|;
    assert forall i :: 0 <= i < n ==> (below + [FALSE])[i] == below[i];
    if n == 0 {
      CheckKey(tx, f.owner, [], []);
    } else {
      var front := below[..n - 1];
      assert below == front + [below[n - 1]];
      CheckKey(tx, f.owner, front, below[n - 1]);
      if n == 1 {
        NothingToProve(tx, f.root, f.depth);
      } else {
        var items, destination := below[..n - 2], below[n - 2];
        assert front == items + [destination] && (below + [FALSE])[..n - 2] == items;
        MembershipCode(tx, f.root, f.depth, items, destination);
        var taken := TakeProof(items, f.depth);
        if taken.Some? { PayAndSucceed(tx, taken.value.0); }
      }
    }
  }

  /** Without a destination the check fails. */
  lemma NothingToProve(tx: Spending, root: Bytes32, depth: nat)
    ensures Run(tx, MembershipTree(root, depth), []) == None
  {
    hide Plain, LayersTree, Run;
    var first, levels := Plain([OpElement(OP_BLAKE2B)]), LayersTree(depth);
    RunAppend(tx, first + levels, Plain([DataElement(root), OpElement(OP_EQUALVERIFY)]), []);
    RunAppend(tx, first, levels, []);
    PlainOne(tx, OpElement(OP_BLAKE2B), []);
  }

  /** The vault is spent exactly in one of two ways, whatever items are offered:
      by its owner after the locktime, or by its owner at any time with a proof. */
  lemma VaultAcceptsExactly(tx: Spending, f: Fields, offered: seq<Bytes>)
    ensures Accepts(tx, Built(f), offered) <==> OwnerRefunds(tx, f, offered) || OwnerPays(tx, f, offered)
  {
    hide Run, RefundTree, WhitelistTree, Template, ElementsFrom, Execute, Flat, Structured, Built, OwnerPays, Fold, TakeProof;
    var vault := Branch(RefundTree(f), WhitelistTree(f));
    TemplateReadsBack(f);
    VaultIsFlat(f);
    TreeRuns(tx, [vault], Machine(offered, []));
    RunAlone(tx, vault, offered);
    var n := |offered|;
    if n > 0 {
      var below := offered[..n - 1];
      RefundRuns(tx, f, below);
      WhitelistRuns(tx, f, below);
      if offered[n - 1] == FALSE { assert offered == below + [FALSE]; }
    }
    PaysNeedsFalse(tx, f, offered);
  }

  lemma PaysNeedsFalse(tx: Spending, f: Fields, offered: seq<Bytes>)
    ensures OwnerPays(tx, f, offered) ==> offered != [] && offered[|offered| - 1] == FALSE
  {
  }

  /** Before the locktime the proved destination is a listed one, unless the hash
      is broken; what output zero is compared with is another item of the witness.
      So output zero goes to the proved destination exactly when the spender
      offers that destination in both places. */
  lemma OutputIsProvedExactly(tx: Spending, f: Fields, leaves: seq<Bytes>, offered: seq<Bytes>)
    requires Hashes32(tx.hash) && leaves != [] && f.root == MerkleRoot(tx.hash, leaves) && f.depth == Depth(|leaves|)
    requires Accepts(tx, Built(f), offered) && !tx.reached(f.locktime)
    ensures var n := |offered|;
            && n >= 3 && tx.outputs != []
            && var taken := TakeProof(offered[..n - 3], f.depth);
               && taken.Some? && |taken.value.1| == f.depth && taken.value.0 != []
               && ListedOrBroken(tx.hash, leaves, offered[n - 3], taken.value.1)
               && (tx.outputs[0].spk == offered[n - 3] <==> taken.value.0[|taken.value.0| - 1] == offered[n - 3])
  {
    hide Accepts, Fold, MerkleRoot, ListedOrBroken, TakeProof;
    VaultAcceptsExactly(tx, f, offered);
    var n := |offered|;
    TakenLength(offered[..n - 3], f.depth);
    ProvedIsListed(tx.hash, leaves, offered[n - 3], TakeProof(offered[..n - 3], f.depth).value.1);
  }

  /** For one, a tree of a single leaf: the leaf is proved, and output zero goes
      elsewhere. */
  lemma OutputCanDiffer(tx: Spending, f: Fields, leaf: Bytes, elsewhere: Bytes, signature: Bytes)
    requires Hashes32(tx.hash) && f.root == MerkleRoot(tx.hash, [leaf]) && f.depth == 0
    requires tx.signed(signature, f.owner) && tx.outputs != [] && tx.outputs[0].spk == elsewhere
    ensures Accepts(tx, Built(f), [elsewhere, leaf, signature, FALSE])
  {
    hide Accepts;
    var offered := [elsewhere, leaf, signature, FALSE];
    VaultAcceptsExactly(tx, f, offered);
    assert offered[..1] == [elsewhere];
    OneLeaf(tx.hash, leaf);
    assert OwnerPays(tx, f, offered);
  }

  lemma OneLeaf(h: HashFunction, leaf: Bytes)
    ensures MerkleRoot(h, [leaf]) == h(leaf)
  {
    assert Bits.Pow2(0) == 1;
    assert Depth(1) == 0;
  }
}
