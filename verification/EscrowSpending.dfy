/** What spending a shipping escrow takes (src/contract/shipping_escrow): the
    script that is built, run on a stack machine against any transaction. */
module EscrowSpending {
  import opened Common
  import opened ContractOpcodes
  import opened ScriptElements
  import opened ScriptNumber
  import opened ScriptMachine
  import opened MerkleTree
  import opened MerkleScript
  import opened ShippingEscrow

  // ----- What is demanded -----

  /** The items offered end with these selectors, the first of them on top. */
  predicate Selects(offered: seq<Bytes>, selectors: seq<bool>) {
    && |selectors| <= |offered|
    && forall i :: 0 <= i < |selectors| ==> offered[|offered| - 1 - i] == if selectors[i] then TRUE else FALSE
  }

  /** Below the selectors lies a signature for the key. */
  predicate Signs(tx: Spending, key: Bytes, offered: seq<Bytes>, selectors: seq<bool>) {
    && Selects(offered, selectors) && |offered| > |selectors|
    && tx.signed(offered[|offered| - 1 - |selectors|], key)
  }

  /** The deliverer takes the goods: the escrow goes on with what remains, and the
      seller gets the rest. */
  predicate PicksUp(t: Terms, tx: Spending, offered: seq<Bytes>) {
    && Signs(tx, t.deliverer, offered, [true])
    && |tx.outputs| == 2
    && tx.outputs[0].spk == tx.spent.spk && tx.outputs[0].amount == t.product - t.product / 2 + t.fee
    && tx.outputs[1].spk == P2pkScriptPublicKey(t.seller)
  }

  /** The buyer, and nobody else, is paid. */
  predicate PaysBuyer(t: Terms, tx: Spending) {
    |tx.outputs| == 1 && tx.outputs[0].spk == P2pkScriptPublicKey(t.buyer)
  }

  /** Nothing was picked up: the arbiter signs, or the pickup deadline has passed. */
  predicate CallsOff(t: Terms, tx: Spending, offered: seq<Bytes>) {
    && (Signs(tx, t.arbiter, offered, [false, true])
        || (Selects(offered, [false, false]) && tx.reached(t.pickupDeadline)))
    && PaysBuyer(t, tx)
  }

  /** The goods arrived: the buyer signs, or the arbiter, or the delivery deadline
      has passed; the seller and the deliverer are paid, the latter its fee. */
  predicate Delivers(t: Terms, tx: Spending, offered: seq<Bytes>) {
    && (|| Signs(tx, t.buyer, offered, [true, true])
        || Signs(tx, t.arbiter, offered, [true, false, true])
        || (Selects(offered, [true, false, false]) && tx.reached(t.deliveryDeadline)))
    && |tx.outputs| == 2
    && tx.outputs[0].spk == P2pkScriptPublicKey(t.seller)
    && tx.outputs[1] == Coin(P2pkScriptPublicKey(t.deliverer), t.fee)
  }

  /** The arbiter gives what remains back to the buyer. */
  predicate TakesBack(t: Terms, tx: Spending, offered: seq<Bytes>) {
    Signs(tx, t.arbiter, offered, [false]) && PaysBuyer(t, tx)
  }

  /** What the escrow allows depends on how much it holds: everything, what remains
      after pickup, or an amount that is neither. */
  predicate MaySpend(t: Terms, tx: Spending, offered: seq<Bytes>) {
    if tx.spent.amount == t.product + t.fee then PicksUp(t, tx, offered) || CallsOff(t, tx, offered)
    else if tx.spent.amount == t.product - t.product / 2 + t.fee then Delivers(t, tx, offered) || TakesBack(t, tx, offered)
    else false
  }

  // ----- The script as a tree -----

  function Check(key: Bytes32): seq<Code> {
    Plain([DataElement(key), Op(OP_CHECKSIGVERIFY)])
  }

  function Lock(deadline: uint64): seq<Code> {
    Plain([IntElement(deadline), Op(OP_CHECKLOCKTIMEVERIFY)])
  }

  const CONTINUES: seq<Element> :=
    [IntElement(0), Op(OP_TX_OUTPUT_SPK), Op(OP_TX_INPUT_INDEX), Op(OP_TX_INPUT_SPK), Op(OP_EQUALVERIFY)]

  function PickupTree(t: Terms): seq<Code>
    requires Fits(t)
  {
    Check(t.deliverer) + Plain(CONTINUES) + Plain(Pays(0, RemainderOf(t)))
      + Plain(PaysTo(1, P2pkScriptPublicKey(t.seller))) + Plain(Outputs(2))
  }

  function PickupRefundTree(t: Terms): seq<Code> {
    [Branch(Check(t.arbiter), Lock(t.pickupDeadline))]
      + Plain(PaysTo(0, P2pkScriptPublicKey(t.buyer))) + Plain(Outputs(1))
  }

  function ReleaseTree(t: Terms): seq<Code> {
    [Branch(Check(t.buyer), [Branch(Check(t.arbiter), Lock(t.deliveryDeadline))])]
  }

  function DeliveryTree(t: Terms): seq<Code> {
    Plain(PaysTo(0, P2pkScriptPublicKey(t.seller))) + Plain(PaysTo(1, P2pkScriptPublicKey(t.deliverer)))
      + Plain(Pays(1, t.fee)) + Plain(Outputs(2))
  }

  function DeliveryRefundTree(t: Terms): seq<Code> {
    Check(t.arbiter) + Plain(PaysTo(0, P2pkScriptPublicKey(t.buyer))) + Plain(Outputs(1))
  }

  function Compare(amount: uint64): seq<Code> {
    Plain([Op(OP_DUP), IntElement(amount), Op(OP_EQUAL)])
  }

  function Drop(): seq<Code> {
    Plain([Op(OP_DROP)])
  }

  function TransitTree(t: Terms): seq<Code>
    requires Fits(t)
  {
    Compare(RemainderOf(t))
      + [Branch(Drop() + [Branch(ReleaseTree(t) + DeliveryTree(t), DeliveryRefundTree(t))], Plain([Op(OP_DROP), Op(OP_0)]))]
  }

  function FundedTree(t: Terms): seq<Code>
    requires Fits(t)
  {
    Compare(TotalOf(t)) + [Branch(Drop() + [Branch(PickupTree(t), PickupRefundTree(t))], TransitTree(t))]
  }

  function Preamble(t: Terms): seq<Element> {
    [DataElement(t.salt), Op(OP_DROP), Op(OP_TX_INPUT_INDEX), Op(OP_TX_INPUT_AMOUNT)]
  }

  // ----- The tree is the script -----

  ghost predicate Spells(code: seq<Code>, elements: seq<Element>) {
    Flat(code) == elements && Structured(code)
  }

  lemma PlainSpells(elements: seq<Element>)
    requires forall i :: 0 <= i < |elements| ==> !IsBranching(elements[i].opcode)
    ensures Spells(Plain(elements), elements)
  {
    PlainFlat(elements);
  }

  lemma SpellsAppend(a: seq<Code>, b: seq<Code>, x: seq<Element>, y: seq<Element>)
    requires Spells(a, x) && Spells(b, y)
    ensures Spells(a + b, x + y)
  {
    FlatAppend(a, b);
  }

  lemma SpellsBranch(a: seq<Code>, b: seq<Code>, x: seq<Element>, y: seq<Element>)
    requires Spells(a, x) && Spells(b, y) && b != []
    ensures Spells([Branch(a, b)], [Op(OP_IF)] + x + [Op(OP_ELSE)] + y + [Op(OP_ENDIF)])
  {
    hide Flat, Structured;
    BranchFlat(a, b);
    StructuredBranch(a, b);
    assert [Op(OP_IF)] + x + [Op(OP_ELSE)] + y + [Op(OP_ENDIF)]
        == [Op(OP_IF)] + (x + ([Op(OP_ELSE)] + y) + [Op(OP_ENDIF)]);
  }

  lemma PhrasesSpell(index: uint64, spk: seq<byte>, amount: uint64)
    ensures Spells(Plain(PaysTo(index, spk)), PaysTo(index, spk))
    ensures Spells(Plain(Pays(index, amount)), Pays(index, amount))
    ensures Spells(Plain(Outputs(index)), Outputs(index))
    ensures Spells(Lock(amount), [IntElement(amount), Op(OP_CHECKLOCKTIMEVERIFY)])
    ensures Spells(Compare(amount), [Op(OP_DUP), IntElement(amount), Op(OP_EQUAL)])
    ensures |Plain(Outputs(index))| == 4 && Lock(amount) != []
  {
    hide IntElement, DataElement, Spells;
    NumberBytes(index);
    NumberBytes(amount);
    DataBytes(spk);
    PlainSpells(PaysTo(index, spk));
    PlainSpells(Pays(index, amount));
    PlainSpells(Outputs(index));
    PlainSpells([IntElement(amount), Op(OP_CHECKLOCKTIMEVERIFY)]);
    PlainSpells([Op(OP_DUP), IntElement(amount), Op(OP_EQUAL)]);
  }

  lemma CheckSpells(key: Bytes32)
    ensures Spells(Check(key), [DataElement(key), Op(OP_CHECKSIGVERIFY)]) && Check(key) != []
  {
    hide DataElement, Spells;
    DataBytes(key);
    PlainSpells([DataElement(key), Op(OP_CHECKSIGVERIFY)]);
  }

  lemma OpsSpell()
    ensures Spells(Drop(), [Op(OP_DROP)]) && Spells(Plain([Op(OP_DROP), Op(OP_0)]), [Op(OP_DROP), Op(OP_0)])
    ensures Spells(Plain(CONTINUES), CONTINUES) && Plain([Op(OP_DROP), Op(OP_0)]) != []
  {
    hide Spells;
    PlainSpells([Op(OP_DROP)]);
    PlainSpells([Op(OP_DROP), Op(OP_0)]);
    NumberBytes(0);
    PlainSpells(CONTINUES);
  }

  lemma PickupSpells(t: Terms)
    requires Fits(t)
    ensures exists body :: Spells(PickupTree(t), body) && Pickup(t) == [Op(OP_IF)] + body
  {
    hide Spells, Plain, IntElement, DataElement, OpElement, NewTranches, P2pkScriptPublicKey, Pays, PaysTo, Outputs, Check;
    var check, seller := [DataElement(t.deliverer), Op(OP_CHECKSIGVERIFY)], P2pkScriptPublicKey(t.seller);
    CheckSpells(t.deliverer);
    OpsSpell();
    PhrasesSpell(0, [], RemainderOf(t));
    PhrasesSpell(1, seller, 0);
    PhrasesSpell(2, [], 0);
    SpellsAppend(Check(t.deliverer), Plain(CONTINUES), check, CONTINUES);
    SpellsAppend(Check(t.deliverer) + Plain(CONTINUES), Plain(Pays(0, RemainderOf(t))), check + CONTINUES, Pays(0, RemainderOf(t)));
    SpellsAppend(Check(t.deliverer) + Plain(CONTINUES) + Plain(Pays(0, RemainderOf(t))), Plain(PaysTo(1, seller)),
                 check + CONTINUES + Pays(0, RemainderOf(t)), PaysTo(1, seller));
    SpellsAppend(Check(t.deliverer) + Plain(CONTINUES) + Plain(Pays(0, RemainderOf(t))) + Plain(PaysTo(1, seller)), Plain(Outputs(2)),
                 check + CONTINUES + Pays(0, RemainderOf(t)) + PaysTo(1, seller), Outputs(2));
    assert Pickup(t) == [Op(OP_IF)] + (check + CONTINUES + Pays(0, RemainderOf(t)) + PaysTo(1, seller) + Outputs(2));
  }

  lemma PickupRefundSpells(t: Terms)
    ensures PickupRefundTree(t) != []
    ensures exists body :: Spells(PickupRefundTree(t), body) && PickupRefund(t) == [Op(OP_ELSE)] + body + [Op(OP_ENDIF)]
  {
    hide Spells, Plain, IntElement, DataElement, OpElement, P2pkScriptPublicKey, PaysTo, Outputs, Check, Lock;
    var check, lock := [DataElement(t.arbiter), Op(OP_CHECKSIGVERIFY)], [IntElement(t.pickupDeadline), Op(OP_CHECKLOCKTIMEVERIFY)];
    var buyer := P2pkScriptPublicKey(t.buyer);
    CheckSpells(t.arbiter);
    PhrasesSpell(0, buyer, t.pickupDeadline);
    PhrasesSpell(1, [], 0);
    var branch := [Branch(Check(t.arbiter), Lock(t.pickupDeadline))];
    var spelled := [Op(OP_IF)] + check + [Op(OP_ELSE)] + lock + [Op(OP_ENDIF)];
    SpellsBranch(Check(t.arbiter), Lock(t.pickupDeadline), check, lock);
    SpellsAppend(branch, Plain(PaysTo(0, buyer)), spelled, PaysTo(0, buyer));
    SpellsAppend(branch + Plain(PaysTo(0, buyer)), Plain(Outputs(1)), spelled + PaysTo(0, buyer), Outputs(1));
    assert PickupRefund(t) == [Op(OP_ELSE)] + (spelled + PaysTo(0, buyer) + Outputs(1)) + [Op(OP_ENDIF)];
  }

  lemma ReleaseSpells(t: Terms)
    ensures exists body :: Spells(ReleaseTree(t), body) && Release(t) == [Op(OP_IF)] + body
  {
    hide Spells, IntElement, DataElement, OpElement, Check, Lock;
    var buyer, arbiter := [DataElement(t.buyer), Op(OP_CHECKSIGVERIFY)], [DataElement(t.arbiter), Op(OP_CHECKSIGVERIFY)];
    var lock := [IntElement(t.deliveryDeadline), Op(OP_CHECKLOCKTIMEVERIFY)];
    CheckSpells(t.buyer);
    CheckSpells(t.arbiter);
    PhrasesSpell(0, [], t.deliveryDeadline);
    SpellsBranch(Check(t.arbiter), Lock(t.deliveryDeadline), arbiter, lock);
    var inner := [Op(OP_IF)] + arbiter + [Op(OP_ELSE)] + lock + [Op(OP_ENDIF)];
    SpellsBranch(Check(t.buyer), [Branch(Check(t.arbiter), Lock(t.deliveryDeadline))], buyer, inner);
    assert Release(t) == [Op(OP_IF)] + ([Op(OP_IF)] + buyer + [Op(OP_ELSE)] + inner + [Op(OP_ENDIF)]);
  }

  lemma DeliverySpells(t: Terms)
    ensures Spells(DeliveryTree(t), Delivery(t))
  {
    hide Spells, Plain, P2pkScriptPublicKey, Pays, PaysTo, Outputs;
    var seller, deliverer := P2pkScriptPublicKey(t.seller), P2pkScriptPublicKey(t.deliverer);
    PhrasesSpell(0, seller, 0);
    PhrasesSpell(1, deliverer, t.fee);
    PhrasesSpell(2, [], 0);
    SpellsAppend(Plain(PaysTo(0, seller)), Plain(PaysTo(1, deliverer)), PaysTo(0, seller), PaysTo(1, deliverer));
    SpellsAppend(Plain(PaysTo(0, seller)) + Plain(PaysTo(1, deliverer)), Plain(Pays(1, t.fee)),
                 PaysTo(0, seller) + PaysTo(1, deliverer), Pays(1, t.fee));
    SpellsAppend(Plain(PaysTo(0, seller)) + Plain(PaysTo(1, deliverer)) + Plain(Pays(1, t.fee)), Plain(Outputs(2)),
                 PaysTo(0, seller) + PaysTo(1, deliverer) + Pays(1, t.fee), Outputs(2));
  }

  lemma DeliveryRefundSpells(t: Terms)
    ensures DeliveryRefundTree(t) != []
    ensures exists body :: Spells(DeliveryRefundTree(t), body) && DeliveryRefund(t) == [Op(OP_ELSE)] + body + [Op(OP_ENDIF)]
  {
    hide Spells, Plain, DataElement, OpElement, P2pkScriptPublicKey, PaysTo, Outputs, Check;
    var check, buyer := [DataElement(t.arbiter), Op(OP_CHECKSIGVERIFY)], P2pkScriptPublicKey(t.buyer);
    CheckSpells(t.arbiter);
    PhrasesSpell(0, buyer, 0);
    PhrasesSpell(1, [], 0);
    SpellsAppend(Check(t.arbiter), Plain(PaysTo(0, buyer)), check, PaysTo(0, buyer));
    SpellsAppend(Check(t.arbiter) + Plain(PaysTo(0, buyer)), Plain(Outputs(1)), check + PaysTo(0, buyer), Outputs(1));
    assert DeliveryRefund(t) == [Op(OP_ELSE)] + (check + PaysTo(0, buyer) + Outputs(1)) + [Op(OP_ENDIF)];
  }

  /** `DUP <amount> EQUAL IF DROP <inner> ELSE <other> ENDIF`. */
  lemma DispatchSpells(amount: uint64, inner: seq<Code>, other: seq<Code>, x: seq<Element>, y: seq<Element>)
    requires Spells(inner, x) && Spells(other, y) && other != []
    ensures Spells(Compare(amount) + [Branch(Drop() + inner, other)], Dispatch(amount) + x + [Op(OP_ELSE)] + y + [Op(OP_ENDIF)])
  {
    hide Spells, IntElement, OpElement, Drop, Compare;
    OpsSpell();
    PhrasesSpell(0, [], amount);
    var compare := [Op(OP_DUP), IntElement(amount), Op(OP_EQUAL)];
    SpellsAppend(Drop(), inner, [Op(OP_DROP)], x);
    SpellsBranch(Drop() + inner, other, [Op(OP_DROP)] + x, y);
    var branch := [Op(OP_IF)] + ([Op(OP_DROP)] + x) + [Op(OP_ELSE)] + y + [Op(OP_ENDIF)];
    SpellsAppend(Compare(amount), [Branch(Drop() + inner, other)], compare, branch);
    assert Dispatch(amount) + x + [Op(OP_ELSE)] + y + [Op(OP_ENDIF)] == compare + branch;
  }

  lemma TransitSpells(t: Terms)
    requires Fits(t)
    ensures Spells(TransitTree(t), StateOne(t)) && TransitTree(t) != []
  {
    hide Spells, NewTranches, OpElement, Release, Delivery, DeliveryRefund, ReleaseTree, DeliveryTree, DeliveryRefundTree, Plain,
      Dispatch, Drop;
    ReleaseSpells(t);
    DeliverySpells(t);
    DeliveryRefundSpells(t);
    OpsSpell();
    var body :| Spells(DeliveryRefundTree(t), body) && DeliveryRefund(t) == [Op(OP_ELSE)] + body + [Op(OP_ENDIF)];
    var release :| Spells(ReleaseTree(t), release) && Release(t) == [Op(OP_IF)] + release;
    SpellsAppend(ReleaseTree(t), DeliveryTree(t), release, Delivery(t));
    SpellsBranch(ReleaseTree(t) + DeliveryTree(t), DeliveryRefundTree(t), release + Delivery(t), body);
    var inner := [Op(OP_IF)] + (release + Delivery(t)) + [Op(OP_ELSE)] + body + [Op(OP_ENDIF)];
    assert inner == Release(t) + Delivery(t) + DeliveryRefund(t);
    DispatchSpells(RemainderOf(t), [Branch(ReleaseTree(t) + DeliveryTree(t), DeliveryRefundTree(t))], Plain([Op(OP_DROP), Op(OP_0)]),
                   inner, [Op(OP_DROP), Op(OP_0)]);
    assert StateOne(t) == Dispatch(RemainderOf(t)) + inner + [Op(OP_ELSE)] + [Op(OP_DROP), Op(OP_0)] + [Op(OP_ENDIF)];
  }

  lemma FundedSpells(t: Terms)
    requires Fits(t)
    ensures Spells(FundedTree(t), StateZero(t))
  {
    hide Spells, NewTranches, OpElement, Pickup, PickupRefund, PickupTree, PickupRefundTree, TransitTree, StateOne, Dispatch, Drop;
    PickupSpells(t);
    PickupRefundSpells(t);
    TransitSpells(t);
    var body :| Spells(PickupRefundTree(t), body) && PickupRefund(t) == [Op(OP_ELSE)] + body + [Op(OP_ENDIF)];
    var pickup :| Spells(PickupTree(t), pickup) && Pickup(t) == [Op(OP_IF)] + pickup;
    SpellsBranch(PickupTree(t), PickupRefundTree(t), pickup, body);
    var inner := [Op(OP_IF)] + pickup + [Op(OP_ELSE)] + body + [Op(OP_ENDIF)];
    assert inner == Pickup(t) + PickupRefund(t);
    DispatchSpells(TotalOf(t), [Branch(PickupTree(t), PickupRefundTree(t))], TransitTree(t), inner, StateOne(t));
    assert StateZero(t) == Dispatch(TotalOf(t)) + inner + [Op(OP_ELSE)] + StateOne(t) + [Op(OP_ENDIF)];
  }

  lemma EscrowSpells(t: Terms)
    requires Fits(t)
    ensures Spells(Plain(Preamble(t)) + FundedTree(t), EscrowTemplate(t))
  {
    hide Spells, FundedTree, StateZero, DataElement;
    DataBytes(t.salt);
    PlainSpells(Preamble(t));
    FundedSpells(t);
    SpellsAppend(Plain(Preamble(t)), FundedTree(t), Preamble(t), StateZero(t));
  }

  // ----- What each phrase does -----

  lemma MinimalValue(value: nat)
    ensures LittleEndian(Minimal(value)) == value
  {
    AppendZero(Digits(value));
  }

  lemma MinimalsDiffer(a: nat, b: nat)
    ensures Minimal(a) == Minimal(b) <==> a == b
  {
    MinimalValue(a);
    MinimalValue(b);
  }

  lemma PaysToRuns(tx: Spending, index: uint64, spk: seq<byte>, base: seq<Bytes>)
    ensures Run(tx, Plain(PaysTo(index, spk)), base)
         == if index < |tx.outputs| && tx.outputs[index].spk == spk then Some(base) else None
  {
    hide Operate, IntElement, DataElement, Minimal;
    NumberBytes(index);
    DataBytes(spk);
    PlainFour(tx, IntElement(index), Op(OP_TX_OUTPUT_SPK), DataElement(spk), Op(OP_EQUALVERIFY), base);
    Pushing(tx, IntElement(index), base);
    LookingUp(tx, OP_TX_OUTPUT_SPK, base, index);
    if index < |tx.outputs| {
      Pushing(tx, DataElement(spk), base + [tx.outputs[index].spk]);
      OnTwo(tx, OP_EQUALVERIFY, base, tx.outputs[index].spk, spk);
      assert base + [] == base;
    }
  }

  lemma PaysRuns(tx: Spending, index: uint64, amount: uint64, base: seq<Bytes>)
    ensures Run(tx, Plain(Pays(index, amount)), base)
         == if index < |tx.outputs| && tx.outputs[index].amount == amount then Some(base) else None
  {
    hide Operate, IntElement, Minimal;
    NumberBytes(index);
    NumberBytes(amount);
    PlainFour(tx, IntElement(index), Op(OP_TX_OUTPUT_AMOUNT), IntElement(amount), Op(OP_EQUALVERIFY), base);
    Pushing(tx, IntElement(index), base);
    LookingUp(tx, OP_TX_OUTPUT_AMOUNT, base, index);
    if index < |tx.outputs| {
      var held := Minimal(tx.outputs[index].amount);
      Pushing(tx, IntElement(amount), base + [held]);
      OnTwo(tx, OP_EQUALVERIFY, base, held, Minimal(amount));
      MinimalsDiffer(tx.outputs[index].amount, amount);
      assert base + [] == base;
    }
  }

  lemma Counting(tx: Spending, stack: seq<Bytes>)
    ensures Operate(tx, Op(OP_TX_OUTPUT_COUNT), stack) == Some(stack + [Minimal(|tx.outputs|)])
    ensures Operate(tx, Op(OP_TX_INPUT_INDEX), stack) == Some(stack + [Minimal(tx.index)])
  {
    hide Minimal;
  }

  lemma OutputsRuns(tx: Spending, n: uint64, base: seq<Bytes>)
    ensures Run(tx, Plain(Outputs(n)), base) == if |tx.outputs| == n then Some(base + [TRUE]) else None
  {
    hide Operate, IntElement, Minimal;
    NumberBytes(n);
    PlainFour(tx, Op(OP_TX_OUTPUT_COUNT), IntElement(n), Op(OP_EQUALVERIFY), Op(OP_1), base);
    Counting(tx, base);
    var held := Minimal(|tx.outputs|);
    Pushing(tx, IntElement(n), base + [held]);
    OnTwo(tx, OP_EQUALVERIFY, base, held, Minimal(n));
    MinimalsDiffer(|tx.outputs|, n);
    assert base + [] == base;
    Pushing(tx, Op(OP_1), base);
  }

  /** Looking up the input that is being spent. */
  lemma OwnInput(tx: Spending, base: seq<Bytes>)
    ensures Operate(tx, Op(OP_TX_INPUT_SPK), base + [Minimal(tx.index)]) == Some(base + [tx.spent.spk])
    ensures Operate(tx, Op(OP_TX_INPUT_AMOUNT), base + [Minimal(tx.index)]) == Some(base + [Minimal(tx.spent.amount)])
  {
    hide Minimal;
    MinimalValue(tx.index);
    OnTop(tx, OP_TX_INPUT_SPK, base, Minimal(tx.index));
    OnTop(tx, OP_TX_INPUT_AMOUNT, base, Minimal(tx.index));
  }

  lemma ContinuesRuns(tx: Spending, base: seq<Bytes>)
    ensures Run(tx, Plain(CONTINUES), base) == if tx.outputs != [] && tx.outputs[0].spk == tx.spent.spk then Some(base) else None
  {
    hide Operate, IntElement, Minimal;
    NumberBytes(0);
    var four := [IntElement(0), Op(OP_TX_OUTPUT_SPK), Op(OP_TX_INPUT_INDEX), Op(OP_TX_INPUT_SPK)];
    assert four + [Op(OP_EQUALVERIFY)] == CONTINUES;
    PlainNext(tx, four, Op(OP_EQUALVERIFY), base);
    PlainFour(tx, IntElement(0), Op(OP_TX_OUTPUT_SPK), Op(OP_TX_INPUT_INDEX), Op(OP_TX_INPUT_SPK), base);
    Pushing(tx, IntElement(0), base);
    LookingUp(tx, OP_TX_OUTPUT_SPK, base, 0);
    if tx.outputs != [] {
      var held := tx.outputs[0].spk;
      Counting(tx, base + [held]);
      OwnInput(tx, base + [held]);
      OnTwo(tx, OP_EQUALVERIFY, base, held, tx.spent.spk);
      assert base + [] == base;
    }
  }

  /** Comparing the amount on top, which stays. */
  lemma CompareRuns(tx: Spending, amount: uint64, base: seq<Bytes>, held: uint64)
    ensures Run(tx, Compare(amount), base + [Minimal(held)])
         == Some(base + [Minimal(held)] + [if held == amount then TRUE else FALSE])
  {
    hide Operate, IntElement, Minimal;
    NumberBytes(amount);
    var x := Minimal(held);
    PlainThree(tx, Op(OP_DUP), IntElement(amount), Op(OP_EQUAL), base + [x]);
    OnTop(tx, OP_DUP, base, x);
    Pushing(tx, IntElement(amount), base + [x] + [x]);
    OnTwo(tx, OP_EQUAL, base + [x], x, Minimal(amount));
    MinimalsDiffer(held, amount);
  }

  lemma DropRuns(tx: Spending, base: seq<Bytes>, x: Bytes)
    ensures Run(tx, Drop(), base + [x]) == Some(base)
    ensures Run(tx, Plain([Op(OP_DROP), Op(OP_0)]), base + [x]) == Some(base + [FALSE])
  {
    hide Operate;
    PlainOne(tx, Op(OP_DROP), base + [x]);
    PlainTwo(tx, Op(OP_DROP), Op(OP_0), base + [x]);
    OnTop(tx, OP_DROP, base, x);
    Pushing(tx, Op(OP_0), base);
  }

  lemma PreambleRuns(tx: Spending, t: Terms, offered: seq<Bytes>)
    ensures Run(tx, Plain(Preamble(t)), offered) == Some(offered + [Minimal(tx.spent.amount)])
  {
    hide Operate, DataElement, Minimal;
    DataBytes(t.salt);
    PlainFour(tx, DataElement(t.salt), Op(OP_DROP), Op(OP_TX_INPUT_INDEX), Op(OP_TX_INPUT_AMOUNT), offered);
    Pushing(tx, DataElement(t.salt), offered);
    OnTop(tx, OP_DROP, offered, t.salt);
    Counting(tx, offered);
    OwnInput(tx, offered);
  }

  // ----- What each part does -----

  /** The signature on top is taken, if it is good. */
  function TakeSignature(tx: Spending, key: Bytes, stack: seq<Bytes>): Option<seq<Bytes>> {
    var n := |stack|;
    if n > 0 && tx.signed(stack[n - 1], key) then Some(stack[..n - 1]) else None
  }

  lemma CheckRuns(tx: Spending, key: Bytes32, stack: seq<Bytes>)
    ensures Run(tx, Check(key), stack) == TakeSignature(tx, key, stack)
  {
    hide Run, Plain;
    if stack == [] {
      CheckKey(tx, key, [], []);
    } else {
      CheckKey(tx, key, stack[..|stack| - 1], stack[|stack| - 1]);
      assert stack == stack[..|stack| - 1] + [stack[|stack| - 1]];
    }
  }

  /** Leaves `TRUE` above `base`, if the condition holds. */
  function Passes(condition: bool, base: Option<seq<Bytes>>): Option<seq<Bytes>> {
    if condition && base.Some? then Some(base.value + [TRUE]) else None
  }

  function AfterCheckOrLock(tx: Spending, key: Bytes, deadline: uint64, stack: seq<Bytes>): Option<seq<Bytes>> {
    match Condition(stack)
    case None => None
    case Some((below, true)) => TakeSignature(tx, key, below)
    case Some((below, false)) => if tx.reached(deadline) then Some(below) else None
  }

  lemma CheckOrLockRuns(tx: Spending, key: Bytes32, deadline: uint64, stack: seq<Bytes>)
    ensures Run(tx, [Branch(Check(key), Lock(deadline))], stack) == AfterCheckOrLock(tx, key, deadline, stack)
  {
    hide Run, Check, Plain, Condition, TakeSignature;
    RunAlone(tx, Branch(Check(key), Lock(deadline)), stack);
    var c := Condition(stack);
    if c.Some? {
      CheckRuns(tx, key, c.value.0);
      CheckLock(tx, deadline, c.value.0);
    }
  }

  lemma PickupRuns(tx: Spending, t: Terms, stack: seq<Bytes>)
    requires Fits(t)
    ensures Run(tx, PickupTree(t), stack)
         == Passes(&& |tx.outputs| == 2 && tx.outputs[0] == Coin(tx.spent.spk, RemainderOf(t))
                   && tx.outputs[1].spk == P2pkScriptPublicKey(t.seller),
                   TakeSignature(tx, t.deliverer, stack))
  {
    hide Run, Check, Plain, P2pkScriptPublicKey, PaysTo, Pays, Outputs, NewTranches, TakeSignature;
    var a, b, c := Check(t.deliverer), Plain(CONTINUES), Plain(Pays(0, RemainderOf(t)));
    var d, e := Plain(PaysTo(1, P2pkScriptPublicKey(t.seller))), Plain(Outputs(2));
    RunAppend(tx, a + b + c + d, e, stack);
    RunAppend(tx, a + b + c, d, stack);
    RunAppend(tx, a + b, c, stack);
    RunAppend(tx, a, b, stack);
    CheckRuns(tx, t.deliverer, stack);
    var taken := TakeSignature(tx, t.deliverer, stack);
    if taken.Some? {
      ContinuesRuns(tx, taken.value);
      PaysRuns(tx, 0, RemainderOf(t), taken.value);
      PaysToRuns(tx, 1, P2pkScriptPublicKey(t.seller), taken.value);
      OutputsRuns(tx, 2, taken.value);
    }
  }

  lemma PickupRefundRuns(tx: Spending, t: Terms, stack: seq<Bytes>)
    ensures Run(tx, PickupRefundTree(t), stack)
         == Passes(PaysBuyer(t, tx), AfterCheckOrLock(tx, t.arbiter, t.pickupDeadline, stack))
  {
    hide Run, Check, Lock, Plain, P2pkScriptPublicKey, PaysTo, Outputs, AfterCheckOrLock;
    var a, b, c := [Branch(Check(t.arbiter), Lock(t.pickupDeadline))],
      Plain(PaysTo(0, P2pkScriptPublicKey(t.buyer))), Plain(Outputs(1));
    RunAppend(tx, a + b, c, stack);
    RunAppend(tx, a, b, stack);
    CheckOrLockRuns(tx, t.arbiter, t.pickupDeadline, stack);
    var r := AfterCheckOrLock(tx, t.arbiter, t.pickupDeadline, stack);
    if r.Some? {
      PaysToRuns(tx, 0, P2pkScriptPublicKey(t.buyer), r.value);
      OutputsRuns(tx, 1, r.value);
    }
  }

  function AfterRelease(tx: Spending, t: Terms, stack: seq<Bytes>): Option<seq<Bytes>> {
    match Condition(stack)
    case None => None
    case Some((below, true)) => TakeSignature(tx, t.buyer, below)
    case Some((below, false)) => AfterCheckOrLock(tx, t.arbiter, t.deliveryDeadline, below)
  }

  lemma ReleaseRuns(tx: Spending, t: Terms, stack: seq<Bytes>)
    ensures Run(tx, ReleaseTree(t), stack) == AfterRelease(tx, t, stack)
  {
    hide Run, Check, Lock, Condition, TakeSignature, AfterCheckOrLock;
    var inner := [Branch(Check(t.arbiter), Lock(t.deliveryDeadline))];
    RunAlone(tx, Branch(Check(t.buyer), inner), stack);
    var c := Condition(stack);
    if c.Some? {
      CheckRuns(tx, t.buyer, c.value.0);
      CheckOrLockRuns(tx, t.arbiter, t.deliveryDeadline, c.value.0);
    }
  }

  lemma DeliveryRuns(tx: Spending, t: Terms, stack: seq<Bytes>)
    ensures Run(tx, ReleaseTree(t) + DeliveryTree(t), stack)
         == Passes(&& |tx.outputs| == 2 && tx.outputs[0].spk == P2pkScriptPublicKey(t.seller)
                   && tx.outputs[1] == Coin(P2pkScriptPublicKey(t.deliverer), t.fee),
                   AfterRelease(tx, t, stack))
  {
    hide Run, ReleaseTree, Plain, P2pkScriptPublicKey, PaysTo, Pays, Outputs, AfterRelease;
    var a, b := Plain(PaysTo(0, P2pkScriptPublicKey(t.seller))), Plain(PaysTo(1, P2pkScriptPublicKey(t.deliverer)));
    var c, d := Plain(Pays(1, t.fee)), Plain(Outputs(2));
    RunAppend(tx, ReleaseTree(t), DeliveryTree(t), stack);
    ReleaseRuns(tx, t, stack);
    var r := AfterRelease(tx, t, stack);
    if r.Some? {
      RunAppend(tx, a + b + c, d, r.value);
      RunAppend(tx, a + b, c, r.value);
      RunAppend(tx, a, b, r.value);
      PaysToRuns(tx, 0, P2pkScriptPublicKey(t.seller), r.value);
      PaysToRuns(tx, 1, P2pkScriptPublicKey(t.deliverer), r.value);
      PaysRuns(tx, 1, t.fee, r.value);
      OutputsRuns(tx, 2, r.value);
    }
  }

  lemma DeliveryRefundRuns(tx: Spending, t: Terms, stack: seq<Bytes>)
    ensures Run(tx, DeliveryRefundTree(t), stack) == Passes(PaysBuyer(t, tx), TakeSignature(tx, t.arbiter, stack))
  {
    hide Run, Check, Plain, P2pkScriptPublicKey, PaysTo, Outputs, TakeSignature;
    var a, b, c := Check(t.arbiter), Plain(PaysTo(0, P2pkScriptPublicKey(t.buyer))), Plain(Outputs(1));
    RunAppend(tx, a + b, c, stack);
    RunAppend(tx, a, b, stack);
    CheckRuns(tx, t.arbiter, stack);
    var r := TakeSignature(tx, t.arbiter, stack);
    if r.Some? {
      PaysToRuns(tx, 0, P2pkScriptPublicKey(t.buyer), r.value);
      OutputsRuns(tx, 1, r.value);
    }
  }

  // ----- From items to demands -----

  /** The run succeeds. */
  predicate Succeeds(r: Option<seq<Bytes>>) {
    r.Some? && r.value != [] && r.value[|r.value| - 1] == TRUE
  }

  lemma SelectsOne(offered: seq<Bytes>, selectors: seq<bool>)
    requires selectors != []
    ensures Selects(offered, selectors)
       <==> && Condition(offered).Some? && Condition(offered).value.1 == selectors[0]
            && Selects(Condition(offered).value.0, selectors[1..])
    ensures Condition(offered).Some? ==> Condition(offered).value.0 == offered[..|offered| - 1]
  {
    var c := Condition(offered);
    if Selects(offered, selectors) { assert offered[|offered| - 1 - 0] == if selectors[0] then TRUE else FALSE; }
    if c.Some? {
      var below := c.value.0;
      assert forall i :: 1 <= i < |selectors| ==> selectors[i] == selectors[1..][i - 1];
      if Selects(below, selectors[1..]) && c.value.1 == selectors[0] {
        forall i | 0 <= i < |selectors| ensures offered[|offered| - 1 - i] == if selectors[i] then TRUE else FALSE {
          if i > 0 { assert below[|below| - 1 - (i - 1)] == offered[|offered| - 1 - i]; }
        }
      }
      if Selects(offered, selectors) {
        forall i | 0 <= i < |selectors| - 1 ensures below[|below| - 1 - i] == if selectors[1..][i] then TRUE else FALSE {
          assert below[|below| - 1 - i] == offered[|offered| - 1 - (i + 1)];
        }
      }
    }
  }

  lemma SignsOne(tx: Spending, key: Bytes, offered: seq<Bytes>, selectors: seq<bool>)
    requires selectors != []
    ensures Signs(tx, key, offered, selectors)
       <==> && Condition(offered).Some? && Condition(offered).value.1 == selectors[0]
            && Signs(tx, key, Condition(offered).value.0, selectors[1..])
  {
    SelectsOne(offered, selectors);
    hide Selects, Condition;
  }

  lemma SignsNow(tx: Spending, key: Bytes, offered: seq<Bytes>)
    ensures Signs(tx, key, offered, []) <==> TakeSignature(tx, key, offered).Some?
    ensures Selects(offered, [])
  {
  }

  lemma CheckOrLockDemands(tx: Spending, key: Bytes, deadline: uint64, stack: seq<Bytes>)
    ensures AfterCheckOrLock(tx, key, deadline, stack).Some?
       <==> Signs(tx, key, stack, [true]) || (Selects(stack, [false]) && tx.reached(deadline))
  {
    SignsOne(tx, key, stack, [true]);
    SelectsOne(stack, [false]);
    assert [true][1..] == [] && [false][1..] == [];
    hide Condition, TakeSignature, Signs, Selects;
    var c := Condition(stack);
    if c.Some? { SignsNow(tx, key, c.value.0); }
  }

  lemma ReleaseDemands(tx: Spending, t: Terms, stack: seq<Bytes>)
    ensures AfterRelease(tx, t, stack).Some?
       <==> || Signs(tx, t.buyer, stack, [true])
            || Signs(tx, t.arbiter, stack, [false, true])
            || (Selects(stack, [false, false]) && tx.reached(t.deliveryDeadline))
  {
    SignsOne(tx, t.buyer, stack, [true]);
    SignsOne(tx, t.arbiter, stack, [false, true]);
    SelectsOne(stack, [false, false]);
    assert [true][1..] == [] && [false, true][1..] == [true] && [false, false][1..] == [false];
    hide Condition, TakeSignature, Signs, Selects, AfterCheckOrLock;
    var c := Condition(stack);
    if c.Some? {
      SignsNow(tx, t.buyer, c.value.0);
      CheckOrLockDemands(tx, t.arbiter, t.deliveryDeadline, c.value.0);
    }
  }

  lemma FundedDemands(t: Terms, tx: Spending, offered: seq<Bytes>)
    requires Fits(t)
    ensures Succeeds(Run(tx, [Branch(PickupTree(t), PickupRefundTree(t))], offered))
       <==> PicksUp(t, tx, offered) || CallsOff(t, tx, offered)
  {
    SignsOne(tx, t.deliverer, offered, [true]);
    SignsOne(tx, t.arbiter, offered, [false, true]);
    SelectsOne(offered, [false, false]);
    assert [true][1..] == [] && [false, true][1..] == [true] && [false, false][1..] == [false];
    hide Run, PickupTree, PickupRefundTree, Condition, TakeSignature, Signs, Selects, AfterCheckOrLock, PaysBuyer, P2pkScriptPublicKey;
    RunAlone(tx, Branch(PickupTree(t), PickupRefundTree(t)), offered);
    var c := Condition(offered);
    if c.Some? {
      var below := c.value.0;
      PickupRuns(tx, t, below);
      PickupRefundRuns(tx, t, below);
      SignsNow(tx, t.deliverer, below);
      CheckOrLockDemands(tx, t.arbiter, t.pickupDeadline, below);
    }
  }

  lemma TransitDemands(t: Terms, tx: Spending, offered: seq<Bytes>)
    requires Fits(t)
    ensures Succeeds(Run(tx, [Branch(ReleaseTree(t) + DeliveryTree(t), DeliveryRefundTree(t))], offered))
       <==> Delivers(t, tx, offered) || TakesBack(t, tx, offered)
  {
    SignsOne(tx, t.buyer, offered, [true, true]);
    SignsOne(tx, t.arbiter, offered, [true, false, true]);
    SelectsOne(offered, [true, false, false]);
    SignsOne(tx, t.arbiter, offered, [false]);
    assert [true, true][1..] == [true] && [true, false, true][1..] == [false, true] && [true, false, false][1..] == [false, false];
    assert [false][1..] == [];
    hide Run, ReleaseTree, DeliveryTree, DeliveryRefundTree, Condition, TakeSignature, Signs, Selects, AfterRelease, PaysBuyer,
      P2pkScriptPublicKey;
    RunAlone(tx, Branch(ReleaseTree(t) + DeliveryTree(t), DeliveryRefundTree(t)), offered);
    var c := Condition(offered);
    if c.Some? {
      var below := c.value.0;
      DeliveryRuns(tx, t, below);
      DeliveryRefundRuns(tx, t, below);
      SignsNow(tx, t.arbiter, below);
      ReleaseDemands(tx, t, below);
    }
  }

  /** `DUP <amount> EQUAL IF DROP <inner> ELSE <other> ENDIF` on an amount. */
  lemma DispatchRuns(tx: Spending, amount: uint64, inner: seq<Code>, other: seq<Code>, base: seq<Bytes>, held: uint64)
    ensures Run(tx, Compare(amount) + [Branch(Drop() + inner, other)], base + [Minimal(held)])
         == if held == amount then Run(tx, inner, base) else Run(tx, other, base + [Minimal(held)])
  {
    hide Run, Compare, Drop, Minimal;
    var branch := Branch(Drop() + inner, other);
    RunAppend(tx, Compare(amount), [branch], base + [Minimal(held)]);
    CompareRuns(tx, amount, base, held);
    RunAlone(tx, branch, base + [Minimal(held)] + [if held == amount then TRUE else FALSE]);
    TopOf(base + [Minimal(held)], if held == amount then TRUE else FALSE);
    if held == amount {
      RunAppend(tx, Drop(), inner, base + [Minimal(held)]);
      DropRuns(tx, base, Minimal(held));
    }
  }

  // ----- The payees -----

  /** What is paid to a key, below its version, is spent by that key's signature
      and by nothing else. */
  lemma PaidToItsKey(tx: Spending, key: Bytes32, offered: seq<Bytes>)
    ensures Accepts(tx, P2pkScriptPublicKey(key)[2..], offered)
       <==> offered != [] && tx.signed(offered[|offered| - 1], key)
  {
    hide Operate, ElementsFrom, Execute, WrittenAll, Flat, Structured, Run;
    var script := [DataElement(key), Op(OP_CHECKSIG)];
    P2pkReads(key);
    DataBytes(key);
    PlainFlat(script);
    TreeRuns(tx, Plain(script), Machine(offered, []));
    PlainTwo(tx, DataElement(key), Op(OP_CHECKSIG), offered);
    Pushing(tx, DataElement(key), offered);
    if offered == [] {
      OneIsTooFew(tx, key);
    } else {
      var n := |offered|;
      OnTwo(tx, OP_CHECKSIG, offered[..n - 1], offered[n - 1], key);
      assert offered == offered[..n - 1] + [offered[n - 1]];
    }
  }

  lemma KeyWritten(key: Bytes32)
    ensures Writable(DataElement(key)) && Written(DataElement(key)) == [0x20] + key
    ensures Writable(Op(OP_CHECKSIG)) && Written(Op(OP_CHECKSIG)) == [OP_CHECKSIG]
  {
  }

  lemma SpkTail(key: Bytes32)
    ensures P2pkScriptPublicKey(key)[2..] == [0x20] + key + [OP_CHECKSIG]
  {
  }

  lemma P2pkReads(key: Bytes32)
    ensures ElementsFrom(P2pkScriptPublicKey(key)[2..], 0) == Some([DataElement(key), Op(OP_CHECKSIG)])
  {
    hide Writable, Written, ElementsFrom, DataElement, OpElement, P2pkScriptPublicKey, WrittenAll;
    var script := [DataElement(key), Op(OP_CHECKSIG)];
    KeyWritten(key);
    SpkTail(key);
    BufferReadsBack(script);
    WrittenAppend([DataElement(key)], [Op(OP_CHECKSIG)]);
    assert [DataElement(key)] + [Op(OP_CHECKSIG)] == script;
    WrittenOne(DataElement(key));
    WrittenOne(Op(OP_CHECKSIG));
  }

  // ----- Main results -----

  /** For every transaction and whatever items are offered, the script that is
      built for an escrow accepts exactly what its terms allow. */
  lemma EscrowAcceptsExactly(t: Terms, tx: Spending, offered: seq<Bytes>)
    requires Fits(t)
    ensures BuiltEscrow(t).Ok?
    ensures Accepts(tx, BuiltEscrow(t).value, offered) <==> MaySpend(t, tx, offered)
  {
    hide Run, FundedTree, TransitTree, PickupTree, PickupRefundTree, ReleaseTree, DeliveryTree, DeliveryRefundTree, Plain, Drop,
      Minimal, EscrowTemplate, ElementsFrom, WrittenAll, Execute, Flat, Structured, PicksUp, CallsOff, Delivers, TakesBack;
    var held := tx.spent.amount;
    var tree := Plain(Preamble(t)) + FundedTree(t);
    EscrowReads(t);
    EscrowSpells(t);
    TreeRuns(tx, tree, Machine(offered, []));
    RunAppend(tx, Plain(Preamble(t)), FundedTree(t), offered);
    PreambleRuns(tx, t, offered);
    FundedRuns(t, tx, offered, held);
    FundedDemands(t, tx, offered);
    TransitDemands(t, tx, offered);
  }

  lemma EscrowReads(t: Terms)
    requires Fits(t)
    ensures ElementsFrom(BuiltEscrow(t).value, 0) == Some(EscrowTemplate(t))
  {
    hide EscrowTemplate, Writable, WrittenAll, ElementsFrom;
    EscrowWritable(t);
    BufferReadsBack(EscrowTemplate(t));
  }

  lemma FundedRuns(t: Terms, tx: Spending, base: seq<Bytes>, held: uint64)
    requires Fits(t)
    ensures Run(tx, FundedTree(t), base + [Minimal(held)])
         == if held == t.product + t.fee then Run(tx, [Branch(PickupTree(t), PickupRefundTree(t))], base)
            else if held == t.product - t.product / 2 + t.fee
              then Run(tx, [Branch(ReleaseTree(t) + DeliveryTree(t), DeliveryRefundTree(t))], base)
            else Some(base + [FALSE])
  {
    hide Run, PickupTree, PickupRefundTree, ReleaseTree, DeliveryTree, DeliveryRefundTree, Plain, Drop, Compare, Minimal;
    DispatchRuns(tx, TotalOf(t), [Branch(PickupTree(t), PickupRefundTree(t))], TransitTree(t), base, held);
    DispatchRuns(tx, RemainderOf(t), [Branch(ReleaseTree(t) + DeliveryTree(t), DeliveryRefundTree(t))], Plain([Op(OP_DROP), Op(OP_0)]),
                 base, held);
    DropRuns(tx, base, Minimal(held));
  }

  /** A pickup leaves the escrow in transit: what it leaves behind is spent by a
      delivery or given back, and is not picked up again. Below a price of two
      sompi it is picked up or called off again, for it still holds everything. */
  lemma AfterPickup(t: Terms, tx: Spending, offered: seq<Bytes>, later: Spending, items: seq<Bytes>)
    requires Fits(t) && PicksUp(t, tx, offered) && later.spent == tx.outputs[0]
    ensures later.spent.spk == tx.spent.spk
    ensures Accepts(later, BuiltEscrow(t).value, items)
       <==> if t.product >= 2 then Delivers(t, later, items) || TakesBack(t, later, items)
            else PicksUp(t, later, items) || CallsOff(t, later, items)
  {
    hide Accepts, Delivers, TakesBack, CallsOff;
    EscrowAcceptsExactly(t, later, items);
    assert t.product + t.fee == t.product - t.product / 2 + t.fee <==> t.product < 2;
  }

  /** Until a deadline passes every spend carries a good signature of the
      deliverer, the buyer or the arbiter. */
  lemma NobodySpendsAlone(t: Terms, tx: Spending, offered: seq<Bytes>)
    requires Fits(t) && Accepts(tx, BuiltEscrow(t).value, offered)
    requires !tx.reached(t.pickupDeadline) && !tx.reached(t.deliveryDeadline)
    ensures exists i :: 0 <= i < |offered| && SignedByAny(t, tx, offered[i])
  {
    hide Accepts, PaysBuyer, Signs, Selects, SignedByAny, P2pkScriptPublicKey;
    EscrowAcceptsExactly(t, tx, offered);
    if Signs(tx, t.deliverer, offered, [true]) {
      SignerIsThere(t, tx, t.deliverer, offered, [true]);
    } else if Signs(tx, t.arbiter, offered, [false]) {
      SignerIsThere(t, tx, t.arbiter, offered, [false]);
    } else if Signs(tx, t.arbiter, offered, [false, true]) {
      SignerIsThere(t, tx, t.arbiter, offered, [false, true]);
    } else if Signs(tx, t.buyer, offered, [true, true]) {
      SignerIsThere(t, tx, t.buyer, offered, [true, true]);
    } else {
      SignerIsThere(t, tx, t.arbiter, offered, [true, false, true]);
    }
  }

  predicate SignedByAny(t: Terms, tx: Spending, item: Bytes) {
    tx.signed(item, t.deliverer) || tx.signed(item, t.buyer) || tx.signed(item, t.arbiter)
  }

  lemma SignerIsThere(t: Terms, tx: Spending, key: Bytes, offered: seq<Bytes>, selectors: seq<bool>)
    requires Signs(tx, key, offered, selectors) && key in {t.deliverer, t.buyer, t.arbiter}
    ensures exists i :: 0 <= i < |offered| && SignedByAny(t, tx, offered[i])
  {
    hide Selects;
    assert SignedByAny(t, tx, offered[|offered| - 1 - |selectors|]);
  }
}
