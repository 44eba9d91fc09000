/** The opcodes the contract builders write (src/primitives/opcode.rs). */
module ContractOpcodes {
  import opened Common

  const OP_IF: byte := 0x63
  const OP_ELSE: byte := 0x67
  const OP_ENDIF: byte := 0x68
  const OP_DROP: byte := 0x75
  const OP_DUP: byte := 0x76
  const OP_SWAP: byte := 0x7c
  const OP_CAT: byte := 0x7e
  const OP_EQUAL: byte := 0x87
  const OP_EQUALVERIFY: byte := 0x88
  const OP_BLAKE2B: byte := 0xaa
  const OP_CHECKSIG: byte := 0xac
  const OP_CHECKSIGVERIFY: byte := 0xad
  const OP_CHECKLOCKTIMEVERIFY: byte := 0xb0
  const OP_TX_OUTPUT_COUNT: byte := 0xb4
  const OP_TX_INPUT_INDEX: byte := 0xb9
  const OP_TX_INPUT_AMOUNT: byte := 0xbe
  const OP_TX_INPUT_SPK: byte := 0xbf
  const OP_TX_OUTPUT_AMOUNT: byte := 0xc2
  const OP_TX_OUTPUT_SPK: byte := 0xc3
}
