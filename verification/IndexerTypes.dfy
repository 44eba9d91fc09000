/** Records, rules and limits of the lightweight indexer (src/indexer). */
module IndexerTypes {
  import opened Common

  /** A transaction as the indexer sees it; its raw JSON is not modelled. */
  datatype Transaction = Transaction(
    txid: string, blockHash: Option<string>, daaScore: Option<uint64>, observedAtMs: uint64,
    addresses: seq<string>, payload: seq<byte>)

  datatype Block = Block(hash: string, daaScore: Option<uint64>, observedAtMs: uint64, txids: seq<string>)

  datatype Match = Match(matcherId: uint64, txid: string, observedAtMs: uint64)

  /** White space as Unicode defines it, which `trim` removes. */
  predicate IsWhitespace(c: char) {
    || '\t' <= c <= '\r' || c == ' ' || c == '\U{85}' || c == '\U{A0}' || c == '\U{1680}'
    || '\U{2000}' <= c <= '\U{200A}' || c == '\U{2028}' || c == '\U{2029}' || c == '\U{202F}'
    || c == '\U{205F}' || c == '\U{3000}'
  }

  /** `text.trim().is_empty()`. */
  predicate Blank(text: string) {
    forall i :: 0 <= i < |text| ==> IsWhitespace(text[i])
  }

  // ----- Rules -----

  datatype MatchRule =
    | Address(address: string)
    | PayloadPrefix(value: seq<byte>)
    | PayloadContains(value: seq<byte>)
    | PayloadExact(value: seq<byte>)
    | PayloadSuffix(value: seq<byte>)
  {
    predicate Valid() {
      if Address? then !Blank(address) else 0 < |value| <= 4096
    }

    predicate Matches(tx: Transaction) {
      match this
      case Address(address) => address in tx.addresses
      case PayloadPrefix(value) => value <= tx.payload
      case PayloadContains(value) => exists at :: 0 <= at <= |tx.payload| && WindowAt(tx.payload, at, value)
      case PayloadExact(value) => tx.payload == value
      case PayloadSuffix(value) => |value| <= |tx.payload| && tx.payload[|tx.payload| - |value|..] == value
    }
  }

  predicate WindowAt(payload: seq<byte>, at: nat, value: seq<byte>) {
    at + |value| <= |payload| && payload[at..at + |value|] == value
  }

  datatype Matcher = Matcher(id: uint64, rule: MatchRule)

  const MAX_MATCHERS: nat := 4096

  /** The matches of `tx` against `matchers`, in their order. */
  function Scan(tx: Transaction, matchers: seq<Matcher>): (matches: seq<Match>)
    ensures forall i :: 0 <= i < |matches| ==> matches[i].txid == tx.txid
  {
    if matchers == [] then []
    else
      (if matchers[0].rule.Matches(tx) then [Match(matchers[0].id, tx.txid, tx.observedAtMs)] else [])
      + Scan(tx, matchers[1..])
  }

  // ----- Configuration -----

  datatype Mode = All | Transactions | Matches | Blocks | Custom(transactions: bool, matches: bool, blocks: bool) {
    predicate RetainsTransactions() { All? || Transactions? || (Custom? && transactions) }
    predicate RetainsMatches() { All? || Matches? || (Custom? && matches) }
    predicate RetainsBlocks() { All? || Blocks? || (Custom? && blocks) }

    /** A match-only index still keeps the matching transaction itself. */
    predicate RetainsTransaction(isMatch: bool) {
      RetainsTransactions() || (RetainsMatches() && isMatch)
    }
  }

  datatype Config = Config(
    mode: Mode, maxTransactions: nat, maxBlocks: nat, maxMatches: nat, dedupeWindow: nat,
    transactionTtlMs: uint64, maxPayloadBytes: nat, maxAddressesPerTransaction: nat)
  {
    /** The limits `validate` accepts that the store rests on. */
    predicate Valid() {
      && 1 <= maxTransactions <= 1_000_000 && 1 <= maxBlocks <= 100_000 && 1 <= maxMatches <= 1_000_000
      && 1 <= dedupeWindow <= 1_000_000
      && maxPayloadBytes <= 1_048_576 && maxAddressesPerTransaction <= 4096
    }

    predicate Admits(tx: Transaction) {
      && !Blank(tx.txid)
      && |tx.payload| <= maxPayloadBytes
      && |tx.addresses| <= maxAddressesPerTransaction
      && forall i :: 0 <= i < |tx.addresses| ==> |tx.addresses[i]| <= 256
    }
  }

  datatype Checkpoint = Checkpoint(virtualDaaScore: Option<uint64>, blockHash: Option<string>) {
    predicate Valid() {
      blockHash.Some? ==> !Blank(blockHash.value)
    }
  }

  const NO_CHECKPOINT := Checkpoint(None, None)
}
