/** The Merkle root and proofs of a whitelist (src/contract/merkle/script.rs), for
    any hash function. */
module MerkleTree {
  import opened Common
  import opened Bits

  type Bytes = seq<byte>
  type HashFunction = Bytes -> Bytes

  /** A sibling, and whether the node it belongs to is the left child. */
  datatype Step = Step(sibling: Bytes, left: bool)

  function Zeros(n: nat): (r: Bytes)
    ensures |r| == n && forall i :: 0 <= i < n ==> r[i] == 0
  {
    seq(n, _ => 0)
  }

  const ZERO_HASH: Bytes := Zeros(32)

  // ----- Levels -----

  /** The least `k` from `k0` on with `2^k >= n`. */
  function CeilLog2From(n: nat, k0: nat): (k: nat)
    ensures k0 <= k && n <= Pow2(k)
    ensures forall j :: k0 <= j < k ==> Pow2(j) < n
    decreases n - Pow2(k0)
  {
    if n <= Pow2(k0) then k0 else CeilLog2From(n, k0 + 1)
  }

  /** The depth of the tree over `n` leaves. */
  function Depth(n: nat): nat {
    CeilLog2From(n, 0)
  }

  function LeafHashes(h: HashFunction, leaves: seq<Bytes>): (r: seq<Bytes>)
    ensures |r| == |leaves| && forall i :: 0 <= i < |leaves| ==> r[i] == h(leaves[i])
  {
    seq(|leaves|, i requires 0 <= i < |leaves| => h(leaves[i]))
  }

  /** The hashed leaves, padded with zero hashes to the next power of two. */
  function Padded(h: HashFunction, leaves: seq<Bytes>): (level: seq<Bytes>)
    ensures |level| == Pow2(Depth(|leaves|)) && |leaves| <= |level|
    ensures forall i :: 0 <= i < |leaves| ==> level[i] == h(leaves[i])
    ensures forall i :: |leaves| <= i < |level| ==> level[i] == ZERO_HASH
  {
    LeafHashes(h, leaves) + seq(Pow2(Depth(|leaves|)) - |leaves|, _ => ZERO_HASH)
  }

  /** One level up: each pair is hashed together. */
  function NextLevel(h: HashFunction, level: seq<Bytes>): (next: seq<Bytes>)
    requires |level| % 2 == 0
    ensures |next| == |level| / 2
  {
    seq(|level| / 2, i requires 0 <= i < |level| / 2 => h(level[2 * i] + level[2 * i + 1]))
  }

  lemma NextAt(h: HashFunction, level: seq<Bytes>, i: nat)
    requires |level| % 2 == 0 && i < |level| / 2
    ensures NextLevel(h, level)[i] == h(level[2 * i] + level[2 * i + 1])
  {
  }

  /** The root of the tree over `2^k` nodes, by halves from the top. */
  function Root(h: HashFunction, level: seq<Bytes>, k: nat): Bytes
    requires |level| == Pow2(k)
    decreases k
  {
    if k == 0 then level[0]
    else h(Root(h, level[..Pow2(k - 1)], k - 1) + Root(h, level[Pow2(k - 1)..], k - 1))
  }

  lemma NextLevelOfHalf(h: HashFunction, level: seq<Bytes>, m: nat)
    requires |level| == 4 * m
    ensures NextLevel(h, level)[..m] == NextLevel(h, level[..2 * m])
    ensures NextLevel(h, level)[m..] == NextLevel(h, level[2 * m..])
  {
    var low, high := level[..2 * m], level[2 * m..];
    forall i | 0 <= i < m
      ensures NextLevel(h, level)[i] == NextLevel(h, low)[i] && NextLevel(h, level)[m + i] == NextLevel(h, high)[i]
    {
      assert low[2 * i] == level[2 * i] && low[2 * i + 1] == level[2 * i + 1];
      assert high[2 * i] == level[2 * (m + i)] && high[2 * i + 1] == level[2 * (m + i) + 1];
    }
  }

  lemma RootAbove(h: HashFunction, level: seq<Bytes>, k: nat)
    requires k > 0 && |level| == Pow2(k)
    ensures Pow2(k) == 2 * Pow2(k - 1)
    ensures Root(h, level, k) == h(Root(h, level[..Pow2(k - 1)], k - 1) + Root(h, level[Pow2(k - 1)..], k - 1))
  {
  }

  lemma RootOfPair(h: HashFunction, level: seq<Bytes>)
    requires |level| == 2
    ensures Pow2(0) == 1 && Pow2(1) == 2
    ensures Root(h, level, 1) == Root(h, NextLevel(h, level), 0)
  {
    assert Pow2(0) == 1;
    assert level[..1][0] == level[0] && level[1..][0] == level[1];
    NextAt(h, level, 0);
  }

  /** Going one level up keeps the root. */
  lemma {:induction false} RootOfNextLevel(h: HashFunction, level: seq<Bytes>, k: nat)
    requires k > 0 && |level| == Pow2(k)
    ensures |level| == 2 * Pow2(k - 1)
    ensures Root(h, level, k) == Root(h, NextLevel(h, level), k - 1)
    decreases k
  {
    hide Root, NextLevel;
    if k == 1 {
      RootOfPair(h, level);
    } else {
      var half, quarter := Pow2(k - 1), Pow2(k - 2);
      RootAbove(h, level, k);
      hide Pow2;
      assert half == 2 * quarter;
      RootAbove(h, NextLevel(h, level), k - 1);
      RootOfNextLevel(h, level[..half], k - 1);
      RootOfNextLevel(h, level[half..], k - 1);
      NextLevelOfHalf(h, level, quarter);
    }
  }

  // ----- Proofs -----

  /** The siblings on the way from node `index` up to the root. */
  function Proof(h: HashFunction, level: seq<Bytes>, k: nat, index: nat): (proof: seq<Step>)
    requires |level| == Pow2(k) && index < |level|
    ensures |proof| == k
    decreases k
  {
    if k == 0 then []
    else
      var left := index % 2 == 0;
      [Step(level[SiblingOf(index)], left)] + Proof(h, NextLevel(h, level), k - 1, index / 2)
  }

  /** The children of the next node, in order. */
  function Children(node: Bytes, step: Step): Bytes {
    if step.left then node + step.sibling else step.sibling + node
  }

  function Combine(h: HashFunction, node: Bytes, step: Step): Bytes {
    h(Children(node, step))
  }

  /** The node a proof leads to. */
  function Fold(h: HashFunction, node: Bytes, proof: seq<Step>): Bytes
    decreases proof
  {
    if proof == [] then node else Fold(h, Combine(h, node, proof[0]), proof[1..])
  }

  /** The number of the other node of the pair. */
  function SiblingOf(index: nat): (sibling: nat)
    ensures sibling / 2 == index / 2 && sibling != index
  {
    if index % 2 == 0 then index + 1 else index - 1
  }

  lemma ProofUnfolds(h: HashFunction, level: seq<Bytes>, k: nat, index: nat)
    requires k > 0 && |level| == Pow2(k) && index < |level|
    ensures |level| == 2 * Pow2(k - 1) && SiblingOf(index) < |level|
    ensures Proof(h, level, k, index)
              == [Step(level[SiblingOf(index)], index % 2 == 0)] + Proof(h, NextLevel(h, level), k - 1, index / 2)
  {
    hide NextLevel;
  }

  lemma CombinePair(h: HashFunction, level: seq<Bytes>, index: nat)
    requires |level| % 2 == 0 && index < |level|
    ensures SiblingOf(index) < |level|
    ensures Combine(h, level[index], Step(level[SiblingOf(index)], index % 2 == 0)) == NextLevel(h, level)[index / 2]
  {
    NextAt(h, level, index / 2);
    hide NextLevel;
    if index % 2 == 0 {
      assert 2 * (index / 2) == index;
    } else {
      assert 2 * (index / 2) + 1 == index;
    }
  }

  lemma ProofAbove(h: HashFunction, level: seq<Bytes>, k: nat, index: nat)
    requires k > 0 && |level| == Pow2(k) && index < |level|
    ensures |level| == 2 * Pow2(k - 1)
    ensures var proof, next := Proof(h, level, k, index), NextLevel(h, level);
            && proof[1..] == Proof(h, next, k - 1, index / 2)
            && proof[0].left == (index % 2 == 0)
            && Combine(h, level[index], proof[0]) == next[index / 2]
  {
    hide Proof, NextLevel, Pow2, Combine, SiblingOf;
    ProofUnfolds(h, level, k, index);
    CombinePair(h, level, index);
  }

  lemma ProofBelow(h: HashFunction, level: seq<Bytes>)
    requires |level| == Pow2(0)
    ensures |level| == 1 && Proof(h, level, 0, 0) == [] && Root(h, level, 0) == level[0]
  {
  }

  lemma FoldAbove(h: HashFunction, node: Bytes, proof: seq<Step>)
    requires proof != []
    ensures Fold(h, node, proof) == Fold(h, Combine(h, node, proof[0]), proof[1..])
  {
  }

  /** A proof leads from its node to the root. */
  lemma {:induction false} ProofReachesRoot(h: HashFunction, level: seq<Bytes>, k: nat, index: nat)
    requires |level| == Pow2(k) && index < |level|
    ensures Fold(h, level[index], Proof(h, level, k, index)) == Root(h, level, k)
    decreases k
  {
    hide Proof, Root, NextLevel, Pow2, Combine, Fold;
    if k == 0 {
      ProofBelow(h, level);
      assert Fold(h, level[0], []) == level[0] by { FoldNone(h, level[0]); }
    } else {
      ProofAbove(h, level, k, index);
      RootOfNextLevel(h, level, k);
      ProofReachesRoot(h, NextLevel(h, level), k - 1, index / 2);
      FoldAbove(h, level[index], Proof(h, level, k, index));
    }
  }

  lemma FoldNone(h: HashFunction, node: Bytes)
    ensures Fold(h, node, []) == node
  {
  }

  /** Where the directions of a proof say its node is. */
  function IndexOf(proof: seq<Step>): (index: nat)
    ensures index < Pow2(|proof|)
  {
    if proof == [] then 0 else 2 * IndexOf(proof[1..]) + if proof[0].left then 0 else 1
  }

  lemma {:induction false} ProofNamesItsNode(h: HashFunction, level: seq<Bytes>, k: nat, index: nat)
    requires |level| == Pow2(k) && index < |level|
    ensures IndexOf(Proof(h, level, k, index)) == index
    decreases k
  {
    hide Proof, NextLevel, Pow2, Combine;
    if k == 0 {
      ProofBelow(h, level);
    } else {
      ProofAbove(h, level, k, index);
      ProofNamesItsNode(h, NextLevel(h, level), k - 1, index / 2);
    }
  }

  // ----- What a proof proves -----

  predicate All32(nodes: seq<Bytes>) {
    forall i :: 0 <= i < |nodes| ==> |nodes[i]| == 32
  }

  ghost predicate Hashes32(h: HashFunction) {
    forall x :: |h(x)| == 32
  }

  /** Two neighbours, one of them at `index`. */
  function PairAt(level: seq<Bytes>, index: nat): Bytes
    requires |level| % 2 == 0 && index < |level|
  {
    level[2 * (index / 2)] + level[2 * (index / 2) + 1]
  }

  /** Follows a proof beside the tree and stops where both hash different bytes. */
  function Divergence(h: HashFunction, level: seq<Bytes>, node: Bytes, proof: seq<Step>): (Bytes, Bytes)
    requires |level| == Pow2(|proof|)
    decreases |proof|
  {
    if proof == [] then (node, level[0])
    else
      var mine, theirs := Children(node, proof[0]), PairAt(level, IndexOf(proof));
      if h(mine) == h(theirs) && mine != theirs then (mine, theirs)
      else Divergence(h, NextLevel(h, level), h(mine), proof[1..])
  }

  /** Two different inputs with one hash. */
  predicate Collision(h: HashFunction, pair: (Bytes, Bytes)) {
    pair.0 != pair.1 && h(pair.0) == h(pair.1)
  }

  lemma SplitEqually(a: Bytes, b: Bytes, c: Bytes, d: Bytes)
    requires |a| == |c| && a + b == c + d
    ensures a == c && b == d
  {
    assert (a + b)[..|a|] == a && (c + d)[..|c|] == c;
    assert (a + b)[|a|..] == b && (c + d)[|c|..] == d;
  }

  lemma IndexAbove(proof: seq<Step>)
    requires proof != []
    ensures IndexOf(proof) / 2 == IndexOf(proof[1..]) && (IndexOf(proof) % 2 == 0 <==> proof[0].left)
    ensures IndexOf(proof) < Pow2(|proof|)
  {
  }

  lemma DivergenceAbove(h: HashFunction, level: seq<Bytes>, node: Bytes, proof: seq<Step>)
    requires proof != [] && |level| == Pow2(|proof|)
    ensures |level| == 2 * Pow2(|proof| - 1) && IndexOf(proof) < |level|
    ensures var mine, theirs := Children(node, proof[0]), PairAt(level, IndexOf(proof));
            Divergence(h, level, node, proof) == if h(mine) == h(theirs) && mine != theirs then (mine, theirs)
                                                 else Divergence(h, NextLevel(h, level), h(mine), proof[1..])
  {
    hide NextLevel, PairAt, Children;
  }

  lemma BindBase(h: HashFunction, level: seq<Bytes>, node: Bytes)
    requires |level| == Pow2(0)
    ensures |level| == 1 && IndexOf([]) == 0 && Fold(h, node, []) == node && Root(h, level, 0) == level[0]
  {
  }

  /** A proof that leads to the root from a node that is not the tree's node at
      the place the proof names exhibits a hash collision. */
  lemma {:induction false} ProofsBind(h: HashFunction, level: seq<Bytes>, node: Bytes, proof: seq<Step>)
    requires Hashes32(h) && |level| == Pow2(|proof|) && All32(level) && |node| == 32
    requires Fold(h, node, proof) == Root(h, level, |proof|) && node != level[IndexOf(proof)]
    ensures Collision(h, Divergence(h, level, node, proof))
    decreases |proof|
  {
    hide Root, Pow2, NextLevel, Divergence, IndexOf, Fold, PairAt, Children;
    if proof == [] {
      BindBase(h, level, node);
      assert false;
    } else {
      var index, rest := IndexOf(proof), proof[1..];
      IndexAbove(proof);
      DivergenceAbove(h, level, node, proof);
      RootOfNextLevel(h, level, |proof|);
      FoldAbove(h, node, proof);
      NextPair(h, level, index);
      var mine, theirs := Children(node, proof[0]), PairAt(level, index);
      if mine == theirs {
        SamePairSameNode(node, proof[0], level, index);
        assert false;
      } else if h(mine) != h(theirs) {
        NextIs32(h, level);
        ProofsBind(h, NextLevel(h, level), h(mine), rest);
      }
    }
  }

  lemma NextPair(h: HashFunction, level: seq<Bytes>, index: nat)
    requires |level| % 2 == 0 && index < |level|
    ensures NextLevel(h, level)[index / 2] == h(PairAt(level, index))
  {
    NextAt(h, level, index / 2);
  }

  lemma NextIs32(h: HashFunction, level: seq<Bytes>)
    requires Hashes32(h) && |level| % 2 == 0
    ensures All32(NextLevel(h, level))
  {
  }

  lemma SamePairSameNode(node: Bytes, step: Step, level: seq<Bytes>, index: nat)
    requires |level| % 2 == 0 && index < |level| && All32(level) && |node| == 32
    requires step.left == (index % 2 == 0)
    requires Children(node, step) == PairAt(level, index)
    ensures node == level[index]
  {
    var at := 2 * (index / 2);
    if step.left {
      SplitEqually(node, step.sibling, level[at], level[at + 1]);
    } else {
      assert |step.sibling + node| == |level[at] + level[at + 1]|;
      SplitEqually(step.sibling, node, level[at], level[at + 1]);
    }
  }

  // ----- The operations -----

  /** The committed root; none of the leaves means the zero hash. */
  function MerkleRoot(h: HashFunction, leaves: seq<Bytes>): Bytes {
    if leaves == [] then ZERO_HASH else Root(h, Padded(h, leaves), Depth(|leaves|))
  }

  function MerkleProof(h: HashFunction, leaves: seq<Bytes>, index: nat): seq<Step> {
    if index >= |leaves| then [] else Proof(h, Padded(h, leaves), Depth(|leaves|), index)
  }

  /** Hashes and pads the leaves. */
  method PaddedLevel(h: HashFunction, leaves: seq<Bytes>) returns (level: seq<Bytes>)
    requires leaves != []
    ensures level == Padded(h, leaves)
  {
    level := LeafHashes(h, leaves);
    var target := Pow2(Depth(|leaves|));
    while |level| < target
      invariant |leaves| <= |level| <= target
      invariant forall i :: 0 <= i < |leaves| ==> level[i] == h(leaves[i])
      invariant forall i :: |leaves| <= i < |level| ==> level[i] == ZERO_HASH
      decreases target - |level|
    {
      level := level + [ZERO_HASH];
    }
  }

  /** Hashes the pairs of one level. */
  method PairUp(h: HashFunction, level: seq<Bytes>) returns (next: seq<Bytes>)
    requires |level| % 2 == 0
    ensures next == NextLevel(h, level)
  {
    next := [];
    var at := 0;
    while at < |level|
      invariant 0 <= at <= |level| && at % 2 == 0 && |next| == at / 2
      invariant forall i :: 0 <= i < |next| ==> next[i] == h(level[2 * i] + level[2 * i + 1])
    {
      next := next + [h(level[at] + level[at + 1])];
      at := at + 2;
    }
  }

  method ComputeMerkleRoot(h: HashFunction, leaves: seq<Bytes>) returns (root: Bytes)
    ensures root == MerkleRoot(h, leaves)
  {
    hide Root, Pow2, NextLevel;
    if leaves == [] {
      return ZERO_HASH;
    }
    var level := PaddedLevel(h, leaves);
    ghost var k: nat := Depth(|leaves|);
    while |level| > 1
      invariant |level| == Pow2(k) && Root(h, level, k) == MerkleRoot(h, leaves)
      decreases k
    {
      PowAbove(k);
      RootOfNextLevel(h, level, k);
      level := PairUp(h, level);
      k := k - 1;
    }
    OneIsDepthZero(k);
    ProofBelow(h, level);
    root := level[0];
  }

  lemma PowAbove(k: nat)
    requires Pow2(k) > 1
    ensures k > 0 && Pow2(k) == 2 * Pow2(k - 1)
  {
  }

  lemma OneIsDepthZero(k: nat)
    requires Pow2(k) <= 1
    ensures k == 0
  {
  }

  method GenerateMerkleProof(h: HashFunction, leaves: seq<Bytes>, index: nat) returns (proof: seq<Step>)
    ensures proof == MerkleProof(h, leaves, index)
  {
    hide Pow2, NextLevel, Proof;
    if leaves == [] || index >= |leaves| {
      return [];
    }
    var level := PaddedLevel(h, leaves);
    proof := [];
    var at: nat := index;
    ghost var k: nat := Depth(|leaves|);
    ghost var whole := Proof(h, level, k, index);
    assert [] + whole == whole;
    while |level| > 1
      invariant |level| == Pow2(k) && at < |level|
      invariant proof + Proof(h, level, k, at) == whole
      decreases k
    {
      PowAbove(k);
      ProofUnfolds(h, level, k, at);
      var step := Step(level[SiblingOf(at)], at % 2 == 0);
      StepOut(proof, step, Proof(h, NextLevel(h, level), k - 1, at / 2));
      proof := proof + [step];
      level := PairUp(h, level);
      at, k := at / 2, k - 1;
    }
    OneIsDepthZero(k);
    assert Proof(h, level, 0, 0) == [] by { ProofBelow(h, level); }
    assert proof + [] == proof;
  }

  lemma StepOut(proof: seq<Step>, step: Step, rest: seq<Step>)
    ensures proof + ([step] + rest) == proof + [step] + rest
  {
  }

  // ----- Main results -----

  /** Folding the generated proof from any hashed leaf gives the root. */
  lemma GeneratedProofsHold(h: HashFunction, leaves: seq<Bytes>, index: nat)
    requires index < |leaves|
    ensures Fold(h, h(leaves[index]), MerkleProof(h, leaves, index)) == MerkleRoot(h, leaves)
    ensures |MerkleProof(h, leaves, index)| == Depth(|leaves|) && IndexOf(MerkleProof(h, leaves, index)) == index
  {
    var level := Padded(h, leaves);
    assert level[index] == h(leaves[index]);
    ProofReachesRoot(h, level, Depth(|leaves|), index);
    ProofNamesItsNode(h, level, Depth(|leaves|), index);
  }

  /** The pair of inputs that shows a hash broken when a leaf outside the list
      is proved. */
  function Forgery(h: HashFunction, leaves: seq<Bytes>, leaf: Bytes, proof: seq<Step>): (Bytes, Bytes)
    requires leaves != [] && |proof| == Depth(|leaves|)
  {
    var level, index := Padded(h, leaves), IndexOf(proof);
    if h(leaf) != level[index] then Divergence(h, level, h(leaf), proof)
    else if index < |leaves| then (leaf, leaves[index])
    else (leaf, leaf)
  }

  /** Whatever is proved against the root at the tree's depth is the leaf at the
      place the proof names, or exhibits a collision, or is a preimage of the
      zero hash of the padding. */
  lemma OnlyLeavesAreProved(h: HashFunction, leaves: seq<Bytes>, leaf: Bytes, proof: seq<Step>)
    requires Hashes32(h) && leaves != [] && |proof| == Depth(|leaves|)
    requires Fold(h, h(leaf), proof) == MerkleRoot(h, leaves)
    ensures var index := IndexOf(proof);
            || (index < |leaves| && leaf == leaves[index])
            || Collision(h, Forgery(h, leaves, leaf, proof))
            || (index >= |leaves| && h(leaf) == ZERO_HASH)
  {
    var level := Padded(h, leaves);
    if h(leaf) != level[IndexOf(proof)] {
      ProofsBind(h, level, h(leaf), proof);
    }
  }
}
