/** Address strings (src/primitives/address/mod.rs). A string is its bytes: one
    `char` stands for one octet. */
module Address {
  import opened Common
  import opened AddressBits
  import opened AddressChecksum
  import opened Bits

  const CHARSET: string := "qpzry9x8gf2tvdw0s3jn54khce6mua7l"
  const PREFIXES: set<string> := {"kaspa", "kaspatest", "kaspasim", "kaspadev"}

  /** A decoded address. */
  datatype Decoded = Decoded(version: byte, payload: seq<byte>)

  /** The payload length of each defined version. */
  function PayloadLength(version: byte): Option<nat> {
    if version == 0x00 || version == 0x08 then Some(32)
    else if version == 0x01 then Some(33)
    else None
  }

  // ----- Characters -----

  lemma CharsetIsDistinct()
    ensures |CHARSET| == 32
    ensures forall i, j :: 0 <= i < j < 32 ==> CHARSET[i] != CHARSET[j]
  {
    // Spelled out, the table is 32 different characters.
  }

  /** The symbol a character stands for, from position `from` of the table on. */
  function Position(c: char, from: nat): (r: Option<symbol>)
    requires from <= 32
    ensures r.Some? ==> CHARSET[r.value] == c
    ensures r.None? ==> forall i :: from <= i < 32 ==> CHARSET[i] != c
    decreases 32 - from
  {
    if from == 32 then None else if CHARSET[from] == c then Some(from) else Position(c, from + 1)
  }

  function DecodeChars(data: string): Result<seq<symbol>, AddressError> {
    if data == "" then Ok([])
    else
      match Position(data[0], 0)
      case None => Err(InvalidCharacter)
      case Some(v) =>
        var rest :- DecodeChars(data[1..]);
        Ok([v] + rest)
  }

  function EncodeChars(values: seq<symbol>): string {
    seq(|values|, i requires 0 <= i < |values| => CHARSET[values[i]])
  }

  lemma PositionOfSymbol(v: symbol)
    ensures Position(CHARSET[v], 0) == Some(v)
  {
    CharsetIsDistinct();
  }

  /** Characters and symbols spell each other. */
  lemma {:induction false} CharsRoundTrip(values: seq<symbol>, data: string)
    ensures DecodeChars(data) == Ok(values) <==> data == EncodeChars(values)
    decreases |values| + |data|
  {
    if data == "" {
      assert values == [] ==> EncodeChars(values) == "";
    } else {
      var first := Position(data[0], 0);
      if values != [] {
        PositionOfSymbol(values[0]);
        CharsRoundTrip(values[1..], data[1..]);
        assert data == EncodeChars(values) ==> data[0] == CHARSET[values[0]] && data[1..] == EncodeChars(values[1..]);
        if first == Some(values[0]) && data[1..] == EncodeChars(values[1..]) {
          assert data == [data[0]] + data[1..];
          assert EncodeChars(values) == [CHARSET[values[0]]] + EncodeChars(values[1..]);
        }
        assert DecodeChars(data).Ok? ==> DecodeChars(data).value[1..] == DecodeChars(data[1..]).value;
        assert values == [values[0]] + values[1..];
      }
    }
  }

  // ----- Encoding -----

  /** The symbols of a version byte and payload: 8-to-5 conversion cannot fail. */
  function DataSymbols(version: byte, payload: seq<byte>): (data: seq<symbol>)
    ensures Ok(data) == ConvertBits([version] + payload, 8, 5, true)
  {
    BytesFit([version] + payload);
    PadMeans([version] + payload, 8, ConvertBits([version] + payload, 8, 5, true).value, 5);
    FiveBits();
    ConvertBits([version] + payload, 8, 5, true).value
  }

  lemma BytesFit(bytes: seq<byte>)
    ensures Fit(bytes, 8)
    ensures ConvertBits(bytes, 8, 5, true).Ok?
  {
    assert Pow2(8) == 0x100;
    StreamMeans(bytes, 8, 5, 0, 0);
  }

  lemma FiveBits()
    ensures Pow2(5) == 32 && Pow2(8) == 0x100
  {
  }

  function Encode(prefix: string, version: byte, payload: seq<byte>): string {
    var data := DataSymbols(version, payload);
    prefix + ":" + EncodeChars(data) + EncodeChars(ChecksumSymbols(CreateChecksum(prefix, data)))
  }

  /** The encoder as the source writes it, pushing one character at a time. */
  method EncodeAddressBytes(payload: seq<byte>, version: byte, prefix: string) returns (result: string)
    ensures result == Encode(prefix, version, payload)
  {
    hide ConvertBits, PolyFrom, Polymod, Xor, PrefixSymbols, ChecksumSymbol;
    var bytes := [version] + payload;
    var converted := ComputeConvertBits(bytes, 8, 5, true);
    var data: seq<symbol> := DataSymbols(version, payload);
    assert converted == Ok(data);
    var polymod := ComputePolymod(PrefixSymbols(prefix) + data + Zeros(CHECKSUM_LEN));
    var checksum := Xor(polymod, 1);
    result := prefix + ":";
    var head := result;
    for i := 0 to |data|
      invariant result == head + EncodeChars(data[..i])
    {
      assert EncodeChars(data[..i + 1]) == EncodeChars(data[..i]) + [CHARSET[data[i]]];
      result := result + [CHARSET[data[i]]];
    }
    assert data[..|data|] == data;
    var body := result;
    var tail := ChecksumSymbols(checksum);
    for index := 0 to CHECKSUM_LEN
      invariant result == body + EncodeChars(tail[..index])
    {
      assert EncodeChars(tail[..index + 1]) == EncodeChars(tail[..index]) + [CHARSET[tail[index]]];
      result := result + [CHARSET[ChecksumSymbol(checksum, index)]];
    }
    assert tail[..CHECKSUM_LEN] == tail;
  }

  // ----- Decoding -----

  /** `split_once(':')`: what stands before and after the first colon. */
  function SplitOnce(text: string): (r: Option<(string, string)>)
    ensures r.Some? ==> text == r.value.0 + ":" + r.value.1 && ':' !in r.value.0
  {
    if text == "" then None
    else if text[0] == ':' then Some(("", text[1..]))
    else
      var (before, after) :- SplitOnce(text[1..]);
      Some(([text[0]] + before, after))
  }

  lemma {:induction false} SplitAtFirstColon(before: string, after: string)
    requires ':' !in before
    ensures SplitOnce(before + ":" + after) == Some((before, after))
  {
    var text := before + ":" + after;
    if before == "" {
      assert text[1..] == after;
    } else {
      SplitAtFirstColon(before[1..], after);
      assert text[1..] == before[1..] + ":" + after && text[0] == before[0];
      assert before == [before[0]] + before[1..];
    }
  }

  function SplitAddress(addr: string): Result<(string, string), AddressError> {
    match SplitOnce(addr)
    case None => Err(UnknownPrefix)
    case Some((prefix, data)) =>
      if prefix !in PREFIXES then Err(UnknownPrefix)
      else if |data| < 9 then Err(TooShort)
      else Ok((prefix, data))
  }

  /** The bytes of an address's data symbols. */
  function DataBytes(data: seq<symbol>): (r: Result<seq<byte>, AddressError>)
    ensures r == ConvertBits(data, 5, 8, false)
  {
    FiveBits();
    StreamMeans(data, 5, 8, 0, 0);
    var bytes :- ConvertBits(data, 5, 8, false);
    Ok(bytes)
  }

  function Decode(addr: string): Result<Decoded, AddressError> {
    var (prefix, dataPart) :- SplitAddress(addr);
    var values :- DecodeChars(dataPart);
    if |values| <= CHECKSUM_LEN then Err(TooShort)
    else if !VerifyChecksum(prefix, values) then Err(ChecksumMismatch)
    else
      var decoded :- DataBytes(values[..|values| - CHECKSUM_LEN]);
      if decoded == [] then Err(EmptyPayload)
      else
        match PayloadLength(decoded[0])
        case None => Err(UnknownVersion)
        case Some(expected) =>
          if |decoded| - 1 != expected then Err(InvalidPayloadLength) else Ok(Decoded(decoded[0], decoded[1..]))
  }

  /** The decoder as the source writes it. */
  method DecodeAddressBytes(addr: string) returns (r: Result<Decoded, AddressError>)
    ensures r == Decode(addr)
  {
    hide ConvertBits, PolyFrom, DecodeChars, SplitAddress, PrefixSymbols;
    var split := SplitAddress(addr);
    if split.Err? { return Err(split.error); }
    var (prefix, dataPart) := split.value;
    var chars := DecodeChars(dataPart);
    if chars.Err? { return Err(chars.error); }
    var values := chars.value;
    if |values| <= CHECKSUM_LEN { return Err(TooShort); }
    var polymod := ComputePolymod(PrefixSymbols(prefix) + values);
    if polymod != 1 { return Err(ChecksumMismatch); }
    var payloadValues := values[..|values| - CHECKSUM_LEN];
    var converted := ComputeConvertBits(payloadValues, 5, 8, false);
    assert converted == DataBytes(payloadValues);
    if converted.Err? { return Err(converted.error); }
    var decoded: seq<byte> := DataBytes(payloadValues).value;
    if decoded == [] { return Err(EmptyPayload); }
    var expected := PayloadLength(decoded[0]);
    if expected.None? { return Err(UnknownVersion); }
    if |decoded| - 1 != expected.value { return Err(InvalidPayloadLength); }
    return Ok(Decoded(decoded[0], decoded[1..]));
  }

  // ----- Main results -----

  /** A prefix, version and payload that make an address. */
  predicate Legal(prefix: string, version: byte, payload: seq<byte>) {
    prefix in PREFIXES && PayloadLength(version) == Some(|payload|)
  }

  /** What the two conversions have in common. */
  lemma ConversionsAreInverse(bytes: seq<byte>, data: seq<symbol>)
    ensures ConvertBits(bytes, 8, 5, true) == Ok(data) <==> DataBytes(data) == Ok(bytes)
  {
    hide ConvertBits;
    FiveBits();
    BytesFit(bytes);
    assert Fit(data, 5);
    PadMeans(bytes, 8, data, 5);
    NoPadMeans(data, 5, bytes, 8);
  }

  lemma PrefixesHaveNoColon(prefix: string)
    requires prefix in PREFIXES
    ensures ':' !in prefix
  {
  }

  /** The two ends of an address string. */
  lemma EncodeSplits(prefix: string, version: byte, payload: seq<byte>)
    requires prefix in PREFIXES
    ensures var data := DataSymbols(version, payload);
            var tail := ChecksumSymbols(CreateChecksum(prefix, data));
            SplitOnce(Encode(prefix, version, payload)) == Some((prefix, EncodeChars(data + tail)))
  {
    var data := DataSymbols(version, payload);
    var tail := ChecksumSymbols(CreateChecksum(prefix, data));
    assert EncodeChars(data + tail) == EncodeChars(data) + EncodeChars(tail);
    PrefixesHaveNoColon(prefix);
    assert Encode(prefix, version, payload) == prefix + ":" + EncodeChars(data + tail);
    SplitAtFirstColon(prefix, EncodeChars(data + tail));
  }

  lemma DataIsNotEmpty(version: byte, payload: seq<byte>)
    ensures DataSymbols(version, payload) != []
  {
    hide ConvertBits, Pow2;
    var bytes, data := [version] + payload, DataSymbols(version, payload);
    FiveBits();
    BytesFit(bytes);
    PadMeans(bytes, 8, data, 5);
    Whole(bytes, 8);
    Whole(data, 5);
  }

  /** Decoding an encoded address gives back its version and payload. */
  lemma DecodeEncode(prefix: string, version: byte, payload: seq<byte>)
    requires Legal(prefix, version, payload)
    ensures SplitAddress(Encode(prefix, version, payload)).Ok?
    ensures SplitAddress(Encode(prefix, version, payload)).value.0 == prefix
    ensures Decode(Encode(prefix, version, payload)) == Ok(Decoded(version, payload))
  {
    hide ConvertBits, CreateChecksum, VerifyChecksum, Encode, DataSymbols;
    var data := DataSymbols(version, payload);
    var tail := ChecksumSymbols(CreateChecksum(prefix, data));
    var values := data + tail;
    EncodeSplits(prefix, version, payload);
    CharsRoundTrip(values, EncodeChars(values));
    ChecksumIsUnique(prefix, data, tail);
    DataIsNotEmpty(version, payload);
    ConversionsAreInverse([version] + payload, data);
    assert values[..|values| - CHECKSUM_LEN] == data;
    assert ([version] + payload)[1..] == payload;
  }

  /** Re-encoding what an accepted string decodes to gives that same string. */
  lemma EncodeDecode(addr: string)
    requires Decode(addr).Ok?
    ensures var (prefix, decoded) := (SplitAddress(addr).value.0, Decode(addr).value);
            Legal(prefix, decoded.version, decoded.payload) && Encode(prefix, decoded.version, decoded.payload) == addr
  {
    hide ConvertBits, CreateChecksum, VerifyChecksum, DataSymbols;
    var (prefix, dataPart) := SplitAddress(addr).value;
    var decoded := Decode(addr).value;
    var values := DecodeChars(dataPart).value;
    var n := |values| - CHECKSUM_LEN;
    var data, tail := values[..n], values[n..];
    assert values == data + tail;
    CharsRoundTrip(values, dataPart);
    ChecksumIsUnique(prefix, data, tail);
    var bytes := DataBytes(data).value;
    assert bytes == [bytes[0]] + bytes[1..];
    ConversionsAreInverse([decoded.version] + decoded.payload, data);
    assert DataSymbols(decoded.version, decoded.payload) == data;
    assert EncodeChars(data + tail) == EncodeChars(data) + EncodeChars(tail);
  }

  /** The accepted strings are exactly the encoded ones. */
  lemma DecoderAcceptsExactlyEncodings(addr: string)
    ensures Decode(addr).Ok? <==>
            exists prefix, version: byte, payload: seq<byte> ::
              Legal(prefix, version, payload) && Encode(prefix, version, payload) == addr
  {
    if Decode(addr).Ok? {
      EncodeDecode(addr);
    }
    forall prefix, version: byte, payload: seq<byte> | Legal(prefix, version, payload) && Encode(prefix, version, payload) == addr
      ensures Decode(addr).Ok?
    {
      DecodeEncode(prefix, version, payload);
    }
  }
}
