/** What the covenant resolver and the witness tracer share: opcodes, limits,
    selector masks and the parsed form of a script. */
module CovenantScript {
  import opened Common

  const OP_IF: byte := 0x63
  const OP_NOTIF: byte := 0x64
  const OP_ELSE: byte := 0x67
  const OP_ENDIF: byte := 0x68
  const OP_DATA_32: byte := 0x20
  const OP_CHECKSIG: byte := 0xac
  const OP_CHECKSIGVERIFY: byte := 0xad

  const MAX_COVENANT_BRANCH_DEPTH: nat := 16
  const MAX_COVENANT_BRANCH_KEYS: nat := 16

  /** A bit position of a `u16` mask: bit `k` is the k-th IF/NOTIF of the script. */
  type Selector = b: nat | b < 16

  /** A `u16` mask of selectors, as the set of its bit positions. */
  type Mask = set<Selector>

  /** How many branches were entered; the sixteenth is the last. */
  type BranchCount = n: nat | n <= 16

  /** The masks of the first `n` branches together: `(1 << n) - 1`. */
  function Below(n: BranchCount): (mask: Mask)
    ensures forall b :: b in mask <==> 0 <= b < n
  {
    if n == 0 then {} else Below(n - 1) + {n - 1}
  }

  /** `mask ^ (1 << bit)`. */
  function Toggle(mask: Mask, bit: Selector): Mask {
    if bit in mask then mask - {bit} else mask + {bit}
  }

  /** `((a ^ b) & within) == 0`: the masks agree on `within`. */
  predicate AgreeOn(a: Mask, b: Mask, within: Mask) {
    forall bit :: bit in within ==> (bit in a <==> bit in b)
  }

  /** One parsed script element. */
  datatype Node =
    | Push
    | KeyCheck(position: nat, verify: bool)
    | Op(opcode: byte)
    | Branch(bit: Selector, notif: bool, thenArm: seq<Node>, elseArm: seq<Node>)

  datatype ExecutionError =
    | MalformedScript
    | BranchDepthExceeded
    | TooManyKeys
    | IncompleteSelectors
    | UnsupportedSignatureCheck
    | UnsupportedOpcode
    | WitnessDataRequired
    | DataDependentBranch

  /** Whether the 32-byte push at `at` is directly consumed by a signature
      check, which makes it a key. */
  predicate IsKeyCheck(script: seq<byte>, at: nat) {
    at + 33 < |script| && script[at + 33] in {OP_CHECKSIG, OP_CHECKSIGVERIFY}
  }

  predicate IsDataPush(opcode: byte) {
    0x01 <= opcode <= 0x4e
  }

  predicate IsSmallPush(opcode: byte) {
    opcode == 0x00 || opcode == 0x4f || 0x51 <= opcode <= 0x60
  }
}
