/** The Merkle whitelist vault (src/contract/merkle/script.rs): its builder, its
    recogniser, and what the code of its tree levels computes. */
module MerkleScript {
  import opened Common
  import opened ContractOpcodes
  import opened ScriptElements
  import opened ScriptNumber
  import opened MerkleTree

  type Bytes32 = s: seq<byte> | |s| == 32 witness ZERO_HASH

  datatype Fields = Fields(owner: Bytes32, root: Bytes32, depth: byte, locktime: uint64)

  // ----- The template -----

  /** One level: `SWAP IF SWAP ENDIF CAT BLAKE2B`. */
  const LAYER: seq<Element> := [OpElement(OP_SWAP), OpElement(OP_IF), OpElement(OP_SWAP), OpElement(OP_ENDIF),
                                OpElement(OP_CAT), OpElement(OP_BLAKE2B)]

  function Layers(depth: nat): (code: seq<Element>)
    ensures |code| == 6 * depth
    ensures forall i :: 0 <= i < |code| ==> Writable(code[i])
  {
    if depth == 0 then [] else Layers(depth - 1) + LAYER
  }

  function Refund(f: Fields): seq<Element> {
    [OpElement(OP_IF), DataElement(f.owner), OpElement(OP_CHECKSIGVERIFY), IntElement(f.locktime),
     OpElement(OP_CHECKLOCKTIMEVERIFY), OpElement(OP_1), OpElement(OP_ELSE)]
  }

  /** Hashes the destination and compares the root its proof leads to. */
  function Membership(root: Bytes32, depth: nat): seq<Element> {
    [OpElement(OP_BLAKE2B)] + Layers(depth) + [DataElement(root), OpElement(OP_EQUALVERIFY)]
  }

  function Whitelist(f: Fields): seq<Element> {
    [DataElement(f.owner), OpElement(OP_CHECKSIGVERIFY)] + Membership(f.root, f.depth)
      + [IntElement(0), OpElement(OP_TX_OUTPUT_SPK), OpElement(OP_EQUALVERIFY), OpElement(OP_1)]
  }

  function Template(f: Fields): seq<Element> {
    Refund(f) + Whitelist(f) + [OpElement(OP_ENDIF)]
  }

  /** The script that is built from these fields. */
  function Built(f: Fields): seq<byte> {
    WrittenAll(Template(f))
  }

  // ----- Building -----

  method AppendOwnerRefundBranch(script: ScriptBuffer, f: Fields)
    requires script.Valid()
    modifies script
    ensures script.Valid() && script.elements == old(script.elements) + Refund(f)
  {
    hide Written, WrittenAll, Writable, IntElement, DataElement, OpElement, ScriptBuffer.Valid;
    script.Push(OP_IF);
    script.PushPubkey(f.owner);
    script.Push(OP_CHECKSIGVERIFY);
    script.PushInt(f.locktime);
    script.Push(OP_CHECKLOCKTIMEVERIFY);
    script.Push(OP_1);
    script.Push(OP_ELSE);
  }

  method AppendLayers(script: ScriptBuffer, depth: byte)
    requires script.Valid()
    modifies script
    ensures script.Valid() && script.elements == old(script.elements) + Layers(depth)
  {
    hide Written, WrittenAll, Writable, IntElement, DataElement, OpElement, ScriptBuffer.Valid;
    var i := 0;
    assert old(script.elements) + [] == old(script.elements);
    while i < depth
      invariant 0 <= i <= depth && script.Valid()
      invariant script.elements == old(script.elements) + Layers(i)
    {
      ghost var before := script.elements;
      script.Push(OP_SWAP);
      script.Push(OP_IF);
      script.Push(OP_SWAP);
      script.Push(OP_ENDIF);
      script.Push(OP_CAT);
      script.Push(OP_BLAKE2B);
      assert script.elements == before + LAYER;
      i := i + 1;
    }
  }

  method AppendWhitelistBranch(script: ScriptBuffer, f: Fields)
    requires script.Valid()
    modifies script
    ensures script.Valid() && script.elements == old(script.elements) + Whitelist(f)
  {
    hide Written, WrittenAll, Writable, IntElement, DataElement, OpElement, Layers, ScriptBuffer.Valid;
    script.PushPubkey(f.owner);
    script.Push(OP_CHECKSIGVERIFY);
    script.Push(OP_BLAKE2B);
    AppendLayers(script, f.depth);
    script.PushData(f.root);
    script.Push(OP_EQUALVERIFY);
    script.PushInt(0);
    script.Push(OP_TX_OUTPUT_SPK);
    script.Push(OP_EQUALVERIFY);
    script.Push(OP_1);
  }

  method BuildMerkleWhitelistScript(f: Fields) returns (script: seq<byte>)
    ensures script == Built(f)
  {
    hide Writable, Written, WrittenAll, Refund, Whitelist, OpElement;
    var buffer := new ScriptBuffer();
    AppendOwnerRefundBranch(buffer, f);
    AppendWhitelistBranch(buffer, f);
    buffer.Push(OP_ENDIF);
    assert buffer.elements == Template(f);
    script := buffer.bytes;
  }

  // ----- Recognising -----

  const FIXED_ELEMENTS: nat := 17
  const LAYER_ELEMENTS: nat := 6

  function AsBytes32(data: seq<byte>): Option<Bytes32> {
    if |data| == 32 then Some(data) else None
  }

  /** The fields at the places of the template, whatever lies between them. */
  function FieldsAt(elements: seq<Element>): Option<Fields> {
    if |elements| < FIXED_ELEMENTS then None
    else
      var layers := (|elements| - FIXED_ELEMENTS) / LAYER_ELEMENTS;
      var owner :- AsBytes32(elements[1].data);
      var locktime :- ElementInteger(elements[3]);
      var root :- AsBytes32(elements[10 + layers * LAYER_ELEMENTS].data);
      if layers < 0x100 then Some(Fields(owner, root, layers, locktime)) else None
  }

  function Recognised(script: seq<byte>): Option<Fields> {
    var elements :- ElementsFrom(script, 0);
    var fields :- FieldsAt(elements);
    if Built(fields) == script then Some(fields) else None
  }

  /** Reads the fields, builds the script again and compares. */
  method MerkleWhitelistScriptFields(script: seq<byte>) returns (r: Option<Fields>)
    ensures r == Recognised(script)
  {
    var elements := CompleteElements(script);
    if elements.None? {
      return None;
    }
    var fields := FieldsAt(elements.value);
    if fields.None? {
      return None;
    }
    var rebuilt := BuildMerkleWhitelistScript(fields.value);
    r := if rebuilt == script then fields else None;
  }

  lemma TemplateAt(f: Fields)
    ensures var t := Template(f);
            && |t| == FIXED_ELEMENTS + f.depth * LAYER_ELEMENTS
            && t[1] == DataElement(f.owner) && t[3] == IntElement(f.locktime)
            && t[10 + f.depth * LAYER_ELEMENTS] == DataElement(f.root)
            && (forall i :: 0 <= i < |t| ==> Writable(t[i]))
  {
    hide Writable, IntElement, DataElement;
    var w, m := Whitelist(f), Membership(f.root, f.depth);
    RefundWritable(f);
    WhitelistWritable(f);
    var t := Template(f);
    assert |m| == 3 + 6 * f.depth && m[1 + 6 * f.depth] == DataElement(f.root);
    assert w[3 + 6 * f.depth] == DataElement(f.root);
    assert t[10 + 6 * f.depth] == w[3 + 6 * f.depth];
    assert Writable(OpElement(OP_ENDIF)) by { OpWritable(OP_ENDIF); }
  }

  lemma OpWritable(opcode: byte)
    requires opcode == 0 || opcode > OP_PUSHDATA4
    ensures Writable(OpElement(opcode))
  {
  }

  lemma RefundWritable(f: Fields)
    ensures forall i :: 0 <= i < |Refund(f)| ==> Writable(Refund(f)[i])
  {
    IntIsWritable(f.locktime);
    DataIsWritable(f.owner);
  }

  lemma WhitelistWritable(f: Fields)
    ensures forall i :: 0 <= i < |Whitelist(f)| ==> Writable(Whitelist(f)[i])
  {
    IntIsWritable(0);
    DataIsWritable(f.owner);
    DataIsWritable(f.root);
  }

  lemma TemplateReadsBack(f: Fields)
    ensures ElementsFrom(Built(f), 0) == Some(Template(f))
  {
    hide Template, Writable, WrittenAll, ElementsFrom;
    TemplateAt(f);
    BufferReadsBack(Template(f));
  }

  lemma TemplateFields(f: Fields)
    ensures FieldsAt(Template(f)) == Some(f)
  {
    hide Template, ElementInteger, IntElement, Writable;
    TemplateAt(f);
    IntegerReadsBack(f.locktime);
    var t := Template(f);
    assert (|t| - FIXED_ELEMENTS) / LAYER_ELEMENTS == f.depth;
  }

  /** Recognising is the inverse of building: a script is recognised, with these
      fields, exactly when it is what is built from them. */
  lemma RecognisesExactlyWhatIsBuilt(script: seq<byte>, f: Fields)
    ensures Recognised(script) == Some(f) <==> script == Built(f)
  {
    hide FieldsAt, Template, ElementsFrom;
    if script == Built(f) {
      TemplateFields(f);
      hide WrittenAll;
      TemplateReadsBack(f);
    }
  }

  // ----- The locktime reader -----

  /** The locktime read back from a vault: the reader, which does not drop the
      sign byte, fails on exactly the upper half of the range. */
  lemma VaultLocktime(f: Fields)
    ensures PrecedingInteger(Built(f), 0, Opcode, OP_CHECKLOCKTIMEVERIFY)
              == if f.locktime < 0x8000_0000_0000_0000 then Ok(Some(f.locktime)) else Err(())
  {
    TemplateAt(f);
    var t := Template(f);
    PrecedingIsAmong([], t, Opcode, OP_CHECKLOCKTIMEVERIFY);
    assert [] + WrittenAll(t) == Built(f);
    IntegerClassified(f.locktime);
    hide WrittenAll, Whitelist, ElementInteger;
    FirstFive(t, f);
  }

  lemma FirstFive(t: seq<Element>, f: Fields)
    requires |t| >= 5 && t[..5] == Refund(f)[..5]
    ensures PrecedingAmong(t, Opcode, OP_CHECKLOCKTIMEVERIFY) == Preceding(ClassifyElement(IntElement(f.locktime)))
  {
    hide ClassifyElement, Preceding;
    assert t[0] == t[..5][0] && t[1] == t[..5][1] && t[2] == t[..5][2] && t[3] == t[..5][3] && t[4] == t[..5][4];
    IntIsNoLocktimeCheck(f.locktime);
    var any := ClassifyElement(t[2]);
    assert PrecedingAmong(t[4..], ClassifyElement(t[3]), OP_CHECKLOCKTIMEVERIFY) == Preceding(ClassifyElement(t[3]));
    assert t[3..][1..] == t[4..] && t[2..][1..] == t[3..] && t[1..][1..] == t[2..];
    assert PrecedingAmong(t[3..], any, OP_CHECKLOCKTIMEVERIFY) == Preceding(ClassifyElement(t[3]));
    assert PrecedingAmong(t[2..], ClassifyElement(t[1]), OP_CHECKLOCKTIMEVERIFY) == Preceding(ClassifyElement(t[3]));
    assert PrecedingAmong(t[1..], ClassifyElement(t[0]), OP_CHECKLOCKTIMEVERIFY) == Preceding(ClassifyElement(t[3]));
  }

  lemma IntIsNoLocktimeCheck(value: uint64)
    ensures IntElement(value).opcode != OP_CHECKLOCKTIMEVERIFY
  {
    MinimalFits(value);
  }

  /** For one, a vault locked for ever. */
  lemma LockedForEver(owner: Bytes32, root: Bytes32)
    ensures var f := Fields(owner, root, 0, MAX_UINT64);
            && PrecedingInteger(Built(f), 0, Opcode, OP_CHECKLOCKTIMEVERIFY) == Err(())
            && Recognised(Built(f)) == Some(f)
  {
    VaultLocktime(Fields(owner, root, 0, MAX_UINT64));
    RecognisesExactlyWhatIsBuilt(Built(Fields(owner, root, 0, MAX_UINT64)), Fields(owner, root, 0, MAX_UINT64));
  }
}
