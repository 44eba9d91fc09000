/** The shipping escrow (src/contract/shipping_escrow): how its amounts split, the
    script that is built for it, and the terms read back from a script. */
module ShippingEscrow {
  import opened Common
  import opened ContractOpcodes
  import opened ScriptElements
  import opened ScriptNumber
  import opened MerkleTree
  import opened MerkleScript

  type Salt = s: seq<byte> | |s| == 8 witness [0, 0, 0, 0, 0, 0, 0, 0]

  datatype EscrowError = TotalTooLarge | TrancheUnderflow

  /** Everything the script is built from. */
  datatype Terms = Terms(
    seller: Bytes32, deliverer: Bytes32, buyer: Bytes32, arbiter: Bytes32,
    product: uint64, fee: uint64, pickupDeadline: uint64, deliveryDeadline: uint64, salt: Salt)

  // ----- Amounts -----

  datatype Tranches = Tranches(total: uint64, first: uint64, second: uint64, remainder: uint64)

  function CheckedAdd(a: uint64, b: uint64): Option<uint64> {
    if a + b <= MAX_UINT64 then Some(a + b) else None
  }

  function CheckedSub(a: uint64, b: uint64): Option<uint64> {
    if b <= a then Some(a - b) else None
  }

  /** How an escrow splits: nothing is created or lost, the two payments to the
      seller differ by at most one, and it fails only on a total too large. */
  function NewTranches(product: uint64, fee: uint64): (r: Result<Tranches, EscrowError>)
    ensures r.Ok? <==> product + fee <= MAX_UINT64
    ensures r.Err? ==> r.error == TotalTooLarge
    ensures r.Ok? ==> var t := r.value;
                      && t.total == product + fee && t.first + t.second == product
                      && t.first + t.remainder == t.total && t.remainder == t.second + fee
                      && t.first <= t.second <= t.first + 1
  {
    var total := CheckedAdd(product, fee);
    if total.None? then Err(TotalTooLarge)
    else
      var first := product / 2;
      var second, remainder := CheckedSub(product, first), CheckedSub(total.value, first);
      if second.None? || remainder.None? then Err(TrancheUnderflow)
      else Ok(Tranches(total.value, first, second.value, remainder.value))
  }

  predicate Fits(t: Terms) {
    t.product + t.fee <= MAX_UINT64
  }

  function TotalOf(t: Terms): uint64
    requires Fits(t)
  {
    NewTranches(t.product, t.fee).value.total
  }

  function RemainderOf(t: Terms): uint64
    requires Fits(t)
  {
    NewTranches(t.product, t.fee).value.remainder
  }

  // ----- The template -----

  /** A pay-to-public-key script public key: version, push, key, `CHECKSIG`. */
  function P2pkScriptPublicKey(key: Bytes32): (spk: seq<byte>)
    ensures |spk| == 36
  {
    [0x00, 0x00, 0x20] + key + [OP_CHECKSIG]
  }

  function Op(opcode: byte): Element {
    OpElement(opcode)
  }

  /** Output `index` goes to `spk`. */
  function PaysTo(index: uint64, spk: seq<byte>): seq<Element> {
    [IntElement(index), Op(OP_TX_OUTPUT_SPK), DataElement(spk), Op(OP_EQUALVERIFY)]
  }

  /** Output `index` is worth `amount`. */
  function Pays(index: uint64, amount: uint64): seq<Element> {
    [IntElement(index), Op(OP_TX_OUTPUT_AMOUNT), IntElement(amount), Op(OP_EQUALVERIFY)]
  }

  /** There are `n` outputs, and that is all. */
  function Outputs(n: uint64): seq<Element> {
    [Op(OP_TX_OUTPUT_COUNT), IntElement(n), Op(OP_EQUALVERIFY), Op(OP_1)]
  }

  function Pickup(t: Terms): seq<Element>
    requires Fits(t)
  {
    [Op(OP_IF), DataElement(t.deliverer), Op(OP_CHECKSIGVERIFY),
     IntElement(0), Op(OP_TX_OUTPUT_SPK), Op(OP_TX_INPUT_INDEX), Op(OP_TX_INPUT_SPK), Op(OP_EQUALVERIFY)]
    + Pays(0, RemainderOf(t)) + PaysTo(1, P2pkScriptPublicKey(t.seller)) + Outputs(2)
  }

  function PickupRefund(t: Terms): seq<Element> {
    [Op(OP_ELSE), Op(OP_IF), DataElement(t.arbiter), Op(OP_CHECKSIGVERIFY),
     Op(OP_ELSE), IntElement(t.pickupDeadline), Op(OP_CHECKLOCKTIMEVERIFY), Op(OP_ENDIF)]
    + PaysTo(0, P2pkScriptPublicKey(t.buyer)) + Outputs(1) + [Op(OP_ENDIF)]
  }

  function Release(t: Terms): seq<Element> {
    [Op(OP_IF), Op(OP_IF), DataElement(t.buyer), Op(OP_CHECKSIGVERIFY), Op(OP_ELSE), Op(OP_IF)]
    + [DataElement(t.arbiter), Op(OP_CHECKSIGVERIFY), Op(OP_ELSE),
       IntElement(t.deliveryDeadline), Op(OP_CHECKLOCKTIMEVERIFY), Op(OP_ENDIF), Op(OP_ENDIF)]
  }

  function Delivery(t: Terms): seq<Element> {
    PaysTo(0, P2pkScriptPublicKey(t.seller)) + PaysTo(1, P2pkScriptPublicKey(t.deliverer))
    + Pays(1, t.fee) + Outputs(2)
  }

  function DeliveryRefund(t: Terms): seq<Element> {
    [Op(OP_ELSE), DataElement(t.arbiter), Op(OP_CHECKSIGVERIFY)]
    + PaysTo(0, P2pkScriptPublicKey(t.buyer)) + Outputs(1) + [Op(OP_ENDIF)]
  }

  /** Enters the branch when the input holds exactly `amount`. */
  function Dispatch(amount: uint64): seq<Element> {
    [Op(OP_DUP), IntElement(amount), Op(OP_EQUAL), Op(OP_IF), Op(OP_DROP)]
  }

  function StateOne(t: Terms): seq<Element>
    requires Fits(t)
  {
    Dispatch(RemainderOf(t)) + Release(t) + Delivery(t) + DeliveryRefund(t)
      + [Op(OP_ELSE), Op(OP_DROP), Op(OP_0), Op(OP_ENDIF)]
  }

  function StateZero(t: Terms): seq<Element>
    requires Fits(t)
  {
    Dispatch(TotalOf(t)) + Pickup(t) + PickupRefund(t) + [Op(OP_ELSE)] + StateOne(t) + [Op(OP_ENDIF)]
  }

  function EscrowTemplate(t: Terms): seq<Element>
    requires Fits(t)
  {
    [DataElement(t.salt), Op(OP_DROP), Op(OP_TX_INPUT_INDEX), Op(OP_TX_INPUT_AMOUNT)] + StateZero(t)
  }

  /** The script for these terms, when their total fits. */
  function BuiltEscrow(t: Terms): Result<seq<byte>, EscrowError> {
    if Fits(t) then Ok(WrittenAll(EscrowTemplate(t))) else Err(TotalTooLarge)
  }

  // ----- Building -----

  method AppendDispatchOn(script: ScriptBuffer, amount: uint64)
    requires script.Valid()
    modifies script
    ensures script.Valid() && script.elements == old(script.elements) + Dispatch(amount)
  {
    hide Written, WrittenAll, Writable, IntElement, DataElement, OpElement, ScriptBuffer.Valid;
    script.Push(OP_DUP);
    script.PushInt(amount);
    script.Push(OP_EQUAL);
    script.Push(OP_IF);
    script.Push(OP_DROP);
  }

  method AppendPaysTo(script: ScriptBuffer, index: uint64, spk: seq<byte>)
    requires script.Valid() && |spk| < 0x1_0000_0000
    modifies script
    ensures script.Valid() && script.elements == old(script.elements) + PaysTo(index, spk)
  {
    hide Written, WrittenAll, Writable, IntElement, DataElement, OpElement, ScriptBuffer.Valid;
    script.PushInt(index);
    script.Push(OP_TX_OUTPUT_SPK);
    script.PushData(spk);
    script.Push(OP_EQUALVERIFY);
  }

  method AppendPays(script: ScriptBuffer, index: uint64, amount: uint64)
    requires script.Valid()
    modifies script
    ensures script.Valid() && script.elements == old(script.elements) + Pays(index, amount)
  {
    hide Written, WrittenAll, Writable, IntElement, DataElement, OpElement, ScriptBuffer.Valid;
    script.PushInt(index);
    script.Push(OP_TX_OUTPUT_AMOUNT);
    script.PushInt(amount);
    script.Push(OP_EQUALVERIFY);
  }

  method AppendOutputs(script: ScriptBuffer, n: uint64)
    requires script.Valid()
    modifies script
    ensures script.Valid() && script.elements == old(script.elements) + Outputs(n)
  {
    hide Written, WrittenAll, Writable, IntElement, DataElement, OpElement, ScriptBuffer.Valid;
    script.Push(OP_TX_OUTPUT_COUNT);
    script.PushInt(n);
    script.Push(OP_EQUALVERIFY);
    script.Push(OP_1);
  }

  method AppendPickup(script: ScriptBuffer, t: Terms)
    requires script.Valid() && Fits(t)
    modifies script
    ensures script.Valid() && script.elements == old(script.elements) + Pickup(t)
  {
    hide Writable, IntElement, DataElement, OpElement, Pays, PaysTo, Outputs, P2pkScriptPublicKey, NewTranches, ScriptBuffer.Valid;
    script.Push(OP_IF);
    script.PushPubkey(t.deliverer);
    script.Push(OP_CHECKSIGVERIFY);
    script.PushInt(0);
    script.Push(OP_TX_OUTPUT_SPK);
    script.Push(OP_TX_INPUT_INDEX);
    script.Push(OP_TX_INPUT_SPK);
    script.Push(OP_EQUALVERIFY);
    AppendPays(script, 0, RemainderOf(t));
    AppendPaysTo(script, 1, P2pkScriptPublicKey(t.seller));
    AppendOutputs(script, 2);
  }

  method AppendPickupRefund(script: ScriptBuffer, t: Terms)
    requires script.Valid()
    modifies script
    ensures script.Valid() && script.elements == old(script.elements) + PickupRefund(t)
  {
    hide Writable, IntElement, DataElement, OpElement, Pays, PaysTo, Outputs, P2pkScriptPublicKey, NewTranches, ScriptBuffer.Valid;
    script.Push(OP_ELSE);
    script.Push(OP_IF);
    script.PushPubkey(t.arbiter);
    script.Push(OP_CHECKSIGVERIFY);
    script.Push(OP_ELSE);
    script.PushInt(t.pickupDeadline);
    script.Push(OP_CHECKLOCKTIMEVERIFY);
    script.Push(OP_ENDIF);
    AppendPaysTo(script, 0, P2pkScriptPublicKey(t.buyer));
    AppendOutputs(script, 1);
    script.Push(OP_ENDIF);
  }

  method AppendRelease(script: ScriptBuffer, t: Terms)
    requires script.Valid()
    modifies script
    ensures script.Valid() && script.elements == old(script.elements) + Release(t)
  {
    hide Writable, IntElement, DataElement, OpElement, Pays, PaysTo, Outputs, P2pkScriptPublicKey, NewTranches, ScriptBuffer.Valid;
    script.Push(OP_IF);
    script.Push(OP_IF);
    script.PushPubkey(t.buyer);
    script.Push(OP_CHECKSIGVERIFY);
    script.Push(OP_ELSE);
    script.Push(OP_IF);
    script.PushPubkey(t.arbiter);
    script.Push(OP_CHECKSIGVERIFY);
    script.Push(OP_ELSE);
    script.PushInt(t.deliveryDeadline);
    script.Push(OP_CHECKLOCKTIMEVERIFY);
    script.Push(OP_ENDIF);
    script.Push(OP_ENDIF);
  }

  method AppendDelivery(script: ScriptBuffer, t: Terms)
    requires script.Valid()
    modifies script
    ensures script.Valid() && script.elements == old(script.elements) + Delivery(t)
  {
    hide Writable, IntElement, DataElement, OpElement, Pays, PaysTo, Outputs, P2pkScriptPublicKey, NewTranches, ScriptBuffer.Valid;
    AppendPaysTo(script, 0, P2pkScriptPublicKey(t.seller));
    AppendPaysTo(script, 1, P2pkScriptPublicKey(t.deliverer));
    AppendPays(script, 1, t.fee);
    AppendOutputs(script, 2);
  }

  method AppendDeliveryRefund(script: ScriptBuffer, t: Terms)
    requires script.Valid()
    modifies script
    ensures script.Valid() && script.elements == old(script.elements) + DeliveryRefund(t)
  {
    hide Writable, IntElement, DataElement, OpElement, Pays, PaysTo, Outputs, P2pkScriptPublicKey, NewTranches, ScriptBuffer.Valid;
    script.Push(OP_ELSE);
    script.PushPubkey(t.arbiter);
    script.Push(OP_CHECKSIGVERIFY);
    AppendPaysTo(script, 0, P2pkScriptPublicKey(t.buyer));
    AppendOutputs(script, 1);
    script.Push(OP_ENDIF);
  }

  method AppendStateOne(script: ScriptBuffer, t: Terms)
    requires script.Valid() && Fits(t)
    modifies script
    ensures script.Valid() && script.elements == old(script.elements) + StateOne(t)
  {
    hide Dispatch, Release, Delivery, DeliveryRefund, NewTranches, OpElement, ScriptBuffer.Valid;
    AppendDispatchOn(script, RemainderOf(t));
    AppendRelease(script, t);
    AppendDelivery(script, t);
    AppendDeliveryRefund(script, t);
    script.Push(OP_ELSE);
    script.Push(OP_DROP);
    script.Push(OP_0);
    script.Push(OP_ENDIF);
  }

  method AppendStateZero(script: ScriptBuffer, t: Terms)
    requires script.Valid() && Fits(t)
    modifies script
    ensures script.Valid() && script.elements == old(script.elements) + StateZero(t)
  {
    hide Dispatch, Pickup, PickupRefund, StateOne, NewTranches, OpElement, ScriptBuffer.Valid;
    AppendDispatchOn(script, TotalOf(t));
    AppendPickup(script, t);
    AppendPickupRefund(script, t);
    script.Push(OP_ELSE);
    AppendStateOne(script, t);
    script.Push(OP_ENDIF);
  }

  lemma SaltIsPushed(salt: Salt)
    ensures Writable(DataElement(salt)) && Written(DataElement(salt)) == [0x08] + salt
  {
  }

  method BuildShipEscrowScript(t: Terms) returns (r: Result<seq<byte>, EscrowError>)
    ensures r == BuiltEscrow(t)
  {
    hide StateZero, OpElement, Writable, Written, WrittenAll;
    var tranches := NewTranches(t.product, t.fee);
    if tranches.Err? {
      return Err(tranches.error);
    }
    var buffer := new ScriptBuffer();
    SaltIsPushed(t.salt);
    buffer.Extend([0x08] + t.salt, DataElement(t.salt));
    buffer.Push(OP_DROP);
    buffer.Push(OP_TX_INPUT_INDEX);
    buffer.Push(OP_TX_INPUT_AMOUNT);
    AppendStateZero(buffer, t);
    assert buffer.elements == EscrowTemplate(t);
    r := Ok(buffer.bytes);
  }

  // ----- Recognising -----

  const SALT: nat := 0
  const TOTAL: nat := 5
  const DELIVERER_PUBKEY: nat := 10
  const SELLER_SPK: nat := 23
  const ARBITER_PUBKEY: nat := 31
  const PICKUP_DEADLINE: nat := 34
  const BUYER_SPK: nat := 39
  const DELIVERY_DEADLINE: nat := 61
  const FEE: nat := 75

  function IntegerAt(elements: seq<Element>, at: nat): Option<uint64> {
    if at < |elements| then ElementInteger(elements[at]) else None
  }

  function DataAt(elements: seq<Element>, at: nat): Option<seq<byte>> {
    if at < |elements| then Some(elements[at].data) else None
  }

  function SpkPubkey(data: seq<byte>): Option<Bytes32> {
    if |data| >= 35 then Some(data[3..35]) else None
  }

  function AsSalt(data: seq<byte>): Option<Salt> {
    if |data| == 8 then Some(data) else None
  }

  function TermsAt(elements: seq<Element>): Option<Terms> {
    var fee :- IntegerAt(elements, FEE);
    var sellerSpk :- DataAt(elements, SELLER_SPK);
    var seller :- SpkPubkey(sellerSpk);
    var delivererKey :- DataAt(elements, DELIVERER_PUBKEY);
    var deliverer :- AsBytes32(delivererKey);
    var buyerSpk :- DataAt(elements, BUYER_SPK);
    var buyer :- SpkPubkey(buyerSpk);
    var arbiterKey :- DataAt(elements, ARBITER_PUBKEY);
    var arbiter :- AsBytes32(arbiterKey);
    var total :- IntegerAt(elements, TOTAL);
    var product :- CheckedSub(total, fee);
    var pickupDeadline :- IntegerAt(elements, PICKUP_DEADLINE);
    var deliveryDeadline :- IntegerAt(elements, DELIVERY_DEADLINE);
    var saltBytes :- DataAt(elements, SALT);
    var salt :- AsSalt(saltBytes);
    Some(Terms(seller, deliverer, buyer, arbiter, product, fee, pickupDeadline, deliveryDeadline, salt))
  }

  function RecognisedEscrow(script: seq<byte>): Option<Terms> {
    var elements :- ElementsFrom(script, 0);
    var terms :- TermsAt(elements);
    if BuiltEscrow(terms) == Ok(script) then Some(terms) else None
  }

  method ShipEscrowTerms(script: seq<byte>) returns (r: Option<Terms>)
    ensures r == RecognisedEscrow(script)
  {
    var elements := CompleteElements(script);
    if elements.None? {
      return None;
    }
    var terms := TermsAt(elements.value);
    if terms.None? {
      return None;
    }
    var rebuilt := BuildShipEscrowScript(terms.value);
    r := if rebuilt == Ok(script) then terms else None;
  }

  // ----- Main results -----

  predicate AllWritable(elements: seq<Element>) {
    forall i :: 0 <= i < |elements| ==> Writable(elements[i])
  }

  lemma AllWritableAppend(a: seq<Element>, b: seq<Element>)
    requires AllWritable(a) && AllWritable(b)
    ensures AllWritable(a + b)
  {
    hide Writable;
  }

  lemma OutputsWritable(index: uint64, spk: seq<byte>, amount: uint64)
    requires |spk| < 0x1_0000_0000
    ensures AllWritable(PaysTo(index, spk)) && AllWritable(Pays(index, amount)) && AllWritable(Outputs(index))
  {
    IntIsWritable(index);
    IntIsWritable(amount);
    DataIsWritable(spk);
  }

  lemma KeysWritable(t: Terms)
    ensures Writable(DataElement(t.seller)) && Writable(DataElement(t.deliverer))
    ensures Writable(DataElement(t.buyer)) && Writable(DataElement(t.arbiter))
    ensures Writable(IntElement(t.pickupDeadline)) && Writable(IntElement(t.deliveryDeadline)) && Writable(IntElement(0))
  {
    IntIsWritable(t.pickupDeadline);
    IntIsWritable(t.deliveryDeadline);
    IntIsWritable(0);
  }

  lemma PickupWritable(t: Terms)
    requires Fits(t)
    ensures AllWritable(Pickup(t)) && AllWritable(PickupRefund(t))
  {
    hide IntElement, DataElement, NewTranches, P2pkScriptPublicKey, Pays, PaysTo, Outputs;
    KeysWritable(t);
    OutputsWritable(0, P2pkScriptPublicKey(t.buyer), RemainderOf(t));
    OutputsWritable(1, P2pkScriptPublicKey(t.seller), 0);
    OutputsWritable(2, [], 0);
  }

  lemma DeliveryWritable(t: Terms)
    ensures AllWritable(Release(t)) && AllWritable(Delivery(t)) && AllWritable(DeliveryRefund(t))
  {
    hide IntElement, DataElement, NewTranches, P2pkScriptPublicKey, Pays, PaysTo, Outputs;
    KeysWritable(t);
    OutputsWritable(0, P2pkScriptPublicKey(t.buyer), 0);
    OutputsWritable(0, P2pkScriptPublicKey(t.seller), 0);
    OutputsWritable(1, P2pkScriptPublicKey(t.deliverer), t.fee);
    OutputsWritable(2, [], 0);
  }

  lemma DispatchWritable(amount: uint64)
    ensures AllWritable(Dispatch(amount))
  {
    IntIsWritable(amount);
  }

  lemma StateOneWritable(t: Terms)
    requires Fits(t)
    ensures AllWritable(StateOne(t))
  {
    hide Release, Delivery, DeliveryRefund, Dispatch, NewTranches;
    DispatchWritable(RemainderOf(t));
    DeliveryWritable(t);
    AllWritableAppend(Dispatch(RemainderOf(t)), Release(t));
    AllWritableAppend(Dispatch(RemainderOf(t)) + Release(t), Delivery(t));
  }

  lemma StateZeroWritable(t: Terms)
    requires Fits(t)
    ensures AllWritable(StateZero(t))
  {
    hide Pickup, PickupRefund, Dispatch, StateOne, NewTranches;
    DispatchWritable(TotalOf(t));
    PickupWritable(t);
    StateOneWritable(t);
    AllWritableAppend(Dispatch(TotalOf(t)), Pickup(t));
  }

  lemma EscrowWritable(t: Terms)
    requires Fits(t)
    ensures AllWritable(EscrowTemplate(t))
  {
    hide StateZero;
    StateZeroWritable(t);
    DataIsWritable(t.salt);
    var head := [DataElement(t.salt), Op(OP_DROP), Op(OP_TX_INPUT_INDEX), Op(OP_TX_INPUT_AMOUNT)];
    assert AllWritable(head);
    AllWritableAppend(head, StateZero(t));
  }

  lemma StateZeroAt(t: Terms)
    requires Fits(t)
    ensures var e := Dispatch(TotalOf(t)) + Pickup(t) + PickupRefund(t);
            && |e| == 42 && e[1] == IntElement(TotalOf(t)) && e[6] == DataElement(t.deliverer)
            && e[19] == DataElement(P2pkScriptPublicKey(t.seller))
            && e[27] == DataElement(t.arbiter) && e[30] == IntElement(t.pickupDeadline)
            && e[35] == DataElement(P2pkScriptPublicKey(t.buyer))
  {
    hide IntElement, DataElement, OpElement, P2pkScriptPublicKey, NewTranches;
  }

  lemma StateOneAt(t: Terms)
    requires Fits(t)
    ensures |StateOne(t)| == 50
    ensures StateOne(t)[14] == IntElement(t.deliveryDeadline) && StateOne(t)[28] == IntElement(t.fee)
  {
    hide IntElement, DataElement, OpElement, P2pkScriptPublicKey, NewTranches;
  }

  lemma EscrowAt(t: Terms)
    requires Fits(t)
    ensures var e := EscrowTemplate(t);
            && |e| == 98 && e[SALT] == DataElement(t.salt) && e[TOTAL] == IntElement(TotalOf(t))
            && e[DELIVERER_PUBKEY] == DataElement(t.deliverer)
            && e[SELLER_SPK] == DataElement(P2pkScriptPublicKey(t.seller))
            && e[ARBITER_PUBKEY] == DataElement(t.arbiter) && e[PICKUP_DEADLINE] == IntElement(t.pickupDeadline)
            && e[BUYER_SPK] == DataElement(P2pkScriptPublicKey(t.buyer))
            && e[DELIVERY_DEADLINE] == IntElement(t.deliveryDeadline) && e[FEE] == IntElement(t.fee)
  {
    hide IntElement, DataElement, OpElement, P2pkScriptPublicKey, NewTranches, StateOne, Dispatch, Pickup, PickupRefund;
    StateZeroAt(t);
    StateOneAt(t);
  }

  lemma SpkHoldsKey(key: Bytes32)
    ensures SpkPubkey(P2pkScriptPublicKey(key)) == Some(key)
  {
    assert P2pkScriptPublicKey(key)[3..35] == key;
  }

  lemma EscrowFields(t: Terms)
    requires Fits(t)
    ensures TermsAt(EscrowTemplate(t)) == Some(t)
  {
    hide EscrowTemplate, IntElement, ElementInteger, P2pkScriptPublicKey, SpkPubkey;
    EscrowAt(t);
    IntegerReadsBack(TotalOf(t));
    IntegerReadsBack(t.fee);
    IntegerReadsBack(t.pickupDeadline);
    IntegerReadsBack(t.deliveryDeadline);
    SpkHoldsKey(t.seller);
    SpkHoldsKey(t.buyer);
  }

  lemma EscrowReadsBack(t: Terms)
    requires Fits(t)
    ensures ElementsFrom(WrittenAll(EscrowTemplate(t)), 0) == Some(EscrowTemplate(t))
  {
    hide EscrowTemplate, Writable, ElementsFrom, WrittenAll;
    EscrowWritable(t);
    BufferReadsBack(EscrowTemplate(t));
  }

  /** A script is recognised, with these terms, exactly when it is what is built
      from them; so every request whose total fits is recognised. */
  lemma RecognisesExactlyEscrows(script: seq<byte>, t: Terms)
    ensures RecognisedEscrow(script) == Some(t) <==> BuiltEscrow(t) == Ok(script)
  {
    hide TermsAt, EscrowTemplate, ElementsFrom, WrittenAll;
    if BuiltEscrow(t) == Ok(script) {
      EscrowFields(t);
      EscrowReadsBack(t);
    }
  }

  /** The script tells its two states apart by their amounts, exactly when the
      product is worth at least two sompi: below that the first tranche is
      nothing, and a picked-up escrow still looks freshly funded. */
  lemma StatesAreToldApart(t: Terms)
    requires Fits(t)
    ensures IntElement(TotalOf(t)) != IntElement(RemainderOf(t)) <==> t.product >= 2
  {
    if t.product >= 2 {
      IntegerReadsBack(TotalOf(t));
      IntegerReadsBack(RemainderOf(t));
      hide IntElement, ElementInteger;
    }
  }
}
