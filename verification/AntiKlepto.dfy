/** Host-assisted nonces for BIP-340 signatures (src/crypto/anti_klepto.rs). */
module AntiKlepto {
  import opened Common
  import opened SchnorrGroup

  datatype AntiKleptoError =
    | InvalidPrivateKey
    | InvalidProvisionalSignature
    | ReusableProvisionalNonce
    | InvalidHostContribution
    | InvalidNoncePoint
    | InvalidFinalSignature

  /** What the host binds its contribution to. */
  datatype Context = Context(sessionId: seq<byte>, hostSecret: seq<byte>, inputIndex: nat, slot: byte)

  /** All-zero auxiliary randomness. */
  function ZeroAux(): seq<byte> {
    seq(32, _ => 0)
  }

  /** `to_le_bytes` of an unsigned 32-bit number. */
  function LittleEndian32(value: nat): seq<byte> {
    var second := value / 0x100;
    var third := second / 0x100;
    [value % 0x100, second % 0x100, third % 0x100, third / 0x100 % 0x100]
  }

  /** The bytes the host's contribution is hashed from. */
  function HostInput(x: Context, publicKey: seq<byte>, noncePoint: seq<byte>): seq<byte> {
    Ascii("KaspaPortal/anti-klepto/host-scalar/v1") + x.sessionId + x.hostSecret + LittleEndian32(x.inputIndex) + [x.slot]
    + publicKey + noncePoint
  }

  function HostScalar(c: Curve, x: Context, publicKey: seq<byte>, noncePoint: seq<byte>): (r: Result<nat, AntiKleptoError>)
    requires c.n > 0
    ensures r.Ok? ==> 0 < r.value < c.n
    ensures r.Err? ==> r.error == InvalidHostContribution
  {
    var scalar := c.Reduce(c.sha256(HostInput(x, publicKey, noncePoint)));
    if scalar == 0 then Err(InvalidHostContribution) else Ok(scalar)
  }

  /** The lengths the source's arrays have, and its 32-bit index. */
  predicate Sized(x: Context) {
    |x.sessionId| == 16 && |x.hostSecret| == 32 && x.inputIndex < 0x1_0000_0000
  }

  lemma IndexBytes(a: nat, b: nat)
    requires a < 0x1_0000_0000 && b < 0x1_0000_0000 && LittleEndian32(a) == LittleEndian32(b)
    ensures a == b
  {
    var x, y := LittleEndian32(a), LittleEndian32(b);
    assert x[0] == y[0] && x[1] == y[1] && x[2] == y[2] && x[3] == y[3];
    hide LittleEndian32;
    var a1, b1 := a / 0x100, b / 0x100;
    var a2, b2 := a1 / 0x100, b1 / 0x100;
    assert a2 / 0x100 == b2 / 0x100;
    assert a2 == b2;
    assert a1 == b1;
  }

  /** The contribution is hashed from the whole context, the key and the nonce
      point: two uses share those bytes only if they are the same use. */
  lemma HostBindsEverything(x: Context, publicKey: seq<byte>, noncePoint: seq<byte>,
                            x': Context, publicKey': seq<byte>, noncePoint': seq<byte>)
    requires Sized(x) && Sized(x') && |publicKey| == |publicKey'| == |noncePoint| == |noncePoint'| == 33
    ensures HostInput(x, publicKey, noncePoint) == HostInput(x', publicKey', noncePoint')
       <==> x == x' && publicKey == publicKey' && noncePoint == noncePoint'
  {
    hide Ascii, LittleEndian32;
    var d := Ascii("KaspaPortal/anti-klepto/host-scalar/v1");
    if HostInput(x, publicKey, noncePoint) == HostInput(x', publicKey', noncePoint') {
      var i, i' := LittleEndian32(x.inputIndex), LittleEndian32(x'.inputIndex);
      FieldsApart(d + x.sessionId + x.hostSecret + i + [x.slot] + publicKey, noncePoint,
                  d + x'.sessionId + x'.hostSecret + i' + [x'.slot] + publicKey', noncePoint');
      FieldsApart(d + x.sessionId + x.hostSecret + i + [x.slot], publicKey,
                  d + x'.sessionId + x'.hostSecret + i' + [x'.slot], publicKey');
      FieldsApart(d + x.sessionId + x.hostSecret + i, [x.slot], d + x'.sessionId + x'.hostSecret + i', [x'.slot]);
      FieldsApart(d + x.sessionId, x.hostSecret + i, d + x'.sessionId, x'.hostSecret + i') by {
        assert d + x.sessionId + x.hostSecret + i == d + x.sessionId + (x.hostSecret + i);
        assert d + x'.sessionId + x'.hostSecret + i' == d + x'.sessionId + (x'.hostSecret + i');
        assert |d + x.sessionId| == |d + x'.sessionId|;
      }
      FieldsApart(d, x.sessionId, d, x'.sessionId);
      FieldsApart(x.hostSecret, i, x'.hostSecret, i');
      IndexBytes(x.inputIndex, x'.inputIndex);
      assert [x.slot][0] == [x'.slot][0];
    }
  }

  /** The provisional nonce point: BIP-340 nonce points are even. */
  function ProvisionalNoncePoint(sig: Signature): seq<byte> {
    [0x02] + sig.rx
  }

  function CanonicalPublicKey(px: seq<byte>): seq<byte> {
    [0x02] + px
  }

  /** Recovers the provisional nonce, and refuses the one of default signing
      without auxiliary randomness. */
  function ProvisionalNonce(c: Curve, provisional: Signature, secret: nat, px: seq<byte>, message: seq<byte>)
    : (r: Result<nat, AntiKleptoError>)
    requires secret < c.n
    ensures r.Ok? ==> 0 < r.value < c.n
  {
    if provisional.s >= c.n then Err(InvalidProvisionalSignature)
    else
      var nonce := Sub(c.n, provisional.s, Mul(c.n, c.Challenge(provisional.rx, px, message), secret));
      if nonce == 0 then Err(InvalidProvisionalSignature)
      else
        var deterministic := DefaultNonce(c, secret, px, message, ZeroAux());
        if Mul(c.n, nonce, nonce) == Mul(c.n, deterministic, deterministic) then Err(ReusableProvisionalNonce) else Ok(nonce)
  }

  /** The signature with a given nonce. */
  function SignatureWith(c: Curve, nonce: nat, secret: nat, px: seq<byte>, message: seq<byte>): Signature
    requires nonce < c.n && secret < c.n
  {
    var rx := c.x(nonce);
    Signature(rx, Add(c.n, if c.odd(nonce) then Neg(c.n, nonce) else nonce, Mul(c.n, c.Challenge(rx, px, message), secret)))
  }

  /** Signs with a given nonce and verifies the result. */
  function SignWith(c: Curve, nonce: nat, secret: nat, px: seq<byte>, message: seq<byte>): Result<Signature, AntiKleptoError>
    requires nonce < c.n && secret < c.n
  {
    if c.XAndParity(nonce).None? then Err(InvalidNoncePoint)
    else
      var sig := SignatureWith(c, nonce, secret, px, message);
      if LibraryVerifies(c, px, message, sig) then Ok(sig) else Err(InvalidFinalSignature)
  }

  function TweakProvisionalSignature(c: Curve, key: nat, message: seq<byte>, provisional: Signature, x: Context)
    : Result<Signature, AntiKleptoError>
    requires c.n > 0
  {
    var normalized := Normalized(c, key);
    if normalized.None? then Err(InvalidPrivateKey)
    else
      var (secret, px) := normalized.value;
      var nonce :- ProvisionalNonce(c, provisional, secret, px, message);
      var contribution :- HostScalar(c, x, CanonicalPublicKey(px), ProvisionalNoncePoint(provisional));
      var combined := Add(c.n, nonce, contribution);
      if combined == 0 then Err(InvalidHostContribution) else SignWith(c, combined, secret, px, message)
  }

  function VerifyNonceRelation(c: Curve, noncePoint: seq<byte>, final: Signature, x: Context, publicKey: seq<byte>)
    : Result<(), AntiKleptoError>
    requires c.n > 0
  {
    if noncePoint == [] || publicKey == [] || publicKey[0] != 0x02 || noncePoint[0] != 0x02 then Err(InvalidNoncePoint)
    else
      var provisional := c.Decompress(noncePoint);
      if provisional.None? || c.Decompress(publicKey).None? || provisional.value >= c.n then Err(InvalidNoncePoint)
      else
        var contribution :- HostScalar(c, x, publicKey, noncePoint);
        match c.XAndParity(Add(c.n, provisional.value, contribution))
        case None => Err(InvalidNoncePoint)
        case Some((expected, _)) => if expected == final.rx then Ok(()) else Err(InvalidFinalSignature)
  }

  // ----- Recovering the nonce -----

  /** From a signature that verifies, what is recovered is its nonce: the
      multiple of the even nonce point. */
  lemma RecoveredNonce(c: Curve, key: nat, message: seq<byte>, provisional: Signature)
    requires c.Valid() && 0 < key < c.n && Verifies(c, c.x(key), message, provisional)
    ensures var (secret, px) := Normalized(c, key).value;
            && provisional.s < c.n && c.lift(provisional.rx).Some?
            && Sub(c.n, provisional.s, Mul(c.n, c.Challenge(provisional.rx, px, message), secret)) == c.lift(provisional.rx).value
            && c.Decompress(ProvisionalNoncePoint(provisional)) == c.lift(provisional.rx)
            && c.Decompress(CanonicalPublicKey(px)).Some?
  {
    hide Mul;
    NormalizedKey(c, key);
    VerifiesMeans(c, c.x(key), message, provisional);
    var r := c.lift(provisional.rx).value;
    assert |provisional.rx| == |c.x(r)| == 32;
    assert ([0x02] + provisional.rx)[1..] == provisional.rx;
    assert ([0x02] + c.x(key))[1..] == c.x(key);
  }

  /** A valid provisional signature is refused as reusable exactly when its nonce
      is, up to sign, the nonce of default signing without randomness. */
  lemma RefusedExactlyWhenReusable(c: Curve, key: nat, message: seq<byte>, provisional: Signature, x: Context)
    requires c.Valid() && 0 < key < c.n && Verifies(c, c.x(key), message, provisional)
    ensures TweakProvisionalSignature(c, key, message, provisional, x) == Err(ReusableProvisionalNonce) <==>
            var nonce := c.lift(provisional.rx).value;
            var deterministic := DefaultNonce(c, Normalized(c, key).value.0, c.x(key), message, ZeroAux());
            nonce == deterministic || nonce == Neg(c.n, deterministic)
  {
    hide Mul, Add, Sub, Neg, Verifies, DefaultNonce, Curve.Decompress;
    RecoveredNonce(c, key, message, provisional);
    EqualSquares(c.n, c.lift(provisional.rx).value, DefaultNonce(c, Normalized(c, key).value.0, c.x(key), message, ZeroAux()));
  }

  /** So whatever default signing makes without randomness is refused, whichever
      way its nonce was negated. */
  lemma DefaultSignaturesAreRefused(c: Curve, key: nat, message: seq<byte>, x: Context)
    requires c.Valid() && DefaultSign(c, key, message, ZeroAux()).Some?
    ensures TweakProvisionalSignature(c, key, message, DefaultSign(c, key, message, ZeroAux()).value, x) == Err(ReusableProvisionalNonce)
  {
    hide Mul, Verifies, DefaultNonce, Curve.Decompress, TweakProvisionalSignature;
    var provisional := DefaultSign(c, key, message, ZeroAux()).value;
    DefaultSignaturesVerify(c, key, message, ZeroAux());
    RefusedExactlyWhenReusable(c, key, message, provisional, x);
    var (secret, px) := Normalized(c, key).value;
    EvenIsLifted(c, DefaultNonce(c, secret, px, message, ZeroAux()));
  }

  // ----- The tweaked signature -----

  /** Signing with any nonce gives a signature that verifies, so the check at the
      end fails only where the library refuses a zero response. */
  lemma SignedVerifies(c: Curve, key: nat, nonce: nat, message: seq<byte>)
    requires c.Valid() && 0 < key < c.n && 0 < nonce < c.n
    ensures var (secret, px) := Normalized(c, key).value;
            var sig := SignatureWith(c, nonce, secret, px, message);
            && Verifies(c, px, message, sig) && sig.rx == c.x(nonce)
            && SignWith(c, nonce, secret, px, message) == if c.refusesZero && sig.s == 0 then Err(InvalidFinalSignature) else Ok(sig)
  {
    hide Mul, Add, Verifies;
    NormalizedKey(c, key);
    EvenIsLifted(c, nonce);
    var (secret, px) := Normalized(c, key).value;
    VerifiesMeans(c, px, message, SignatureWith(c, nonce, secret, px, message));
  }

  /** The nonce and the host's contribution together, when neither is refused and
      they do not cancel. */
  function CombinedNonce(c: Curve, key: nat, message: seq<byte>, provisional: Signature, x: Context): (r: Option<nat>)
    requires 0 < key < c.n
    ensures r.Some? ==> 0 < r.value < c.n
  {
    var (secret, px) := Normalized(c, key).value;
    var nonce := ProvisionalNonce(c, provisional, secret, px, message);
    var contribution := HostScalar(c, x, CanonicalPublicKey(px), ProvisionalNoncePoint(provisional));
    if nonce.Err? || contribution.Err? then None
    else
      var combined := Add(c.n, nonce.value, contribution.value);
      if combined == 0 then None else Some(combined)
  }

  /** From any provisional signature that verifies, the outcome is a refusal for
      the reusable nonce, a refusal for the host's contribution, a BIP-340
      signature of the same key and message that the host's check accepts, or,
      exactly where that one's response is zero and the library refuses zero, a
      refusal of it. */
  lemma TweakOutcome(c: Curve, key: nat, message: seq<byte>, provisional: Signature, x: Context)
    requires c.Valid() && 0 < key < c.n && Verifies(c, c.x(key), message, provisional)
    ensures var r := TweakProvisionalSignature(c, key, message, provisional, x);
            var combined := CombinedNonce(c, key, message, provisional, x);
            && (combined.None? ==> r == Err(ReusableProvisionalNonce) || r == Err(InvalidHostContribution))
            && (combined.Some? ==>
                  var sig := SignatureWith(c, combined.value, Normalized(c, key).value.0, c.x(key), message);
                  && Verifies(c, c.x(key), message, sig)
                  && VerifyNonceRelation(c, ProvisionalNoncePoint(provisional), sig, x, CanonicalPublicKey(c.x(key))).Ok?
                  && r == if c.refusesZero && sig.s == 0 then Err(InvalidFinalSignature) else Ok(sig))
  {
    hide Mul, Add, Sub, Verifies, DefaultNonce, Curve.Decompress, SignWith, SignatureWith, HostScalar;
    RecoveredNonce(c, key, message, provisional);
    var combined := CombinedNonce(c, key, message, provisional, x);
    if combined.Some? { SignedVerifies(c, key, combined.value, message); }
  }

  /** The host accepts a final signature that verifies only if it is the one the
      device had to make. */
  lemma AcceptedIsTheTweak(c: Curve, key: nat, message: seq<byte>, provisional: Signature, x: Context, final: Signature)
    requires c.Valid() && 0 < key < c.n && Verifies(c, c.x(key), message, provisional)
    requires Verifies(c, c.x(key), message, final)
    requires VerifyNonceRelation(c, ProvisionalNoncePoint(provisional), final, x, CanonicalPublicKey(c.x(key))).Ok?
    requires TweakProvisionalSignature(c, key, message, provisional, x) != Err(ReusableProvisionalNonce)
    ensures TweakProvisionalSignature(c, key, message, provisional, x)
            == if c.refusesZero && final.s == 0 then Err(InvalidFinalSignature) else Ok(final)
  {
    hide Mul, Add, Sub, Verifies, DefaultNonce, Curve.Decompress, SignWith, SignatureWith, HostScalar;
    RecoveredNonce(c, key, message, provisional);
    var (secret, px) := Normalized(c, key).value;
    var nonce := c.lift(provisional.rx).value;
    var contribution := HostScalar(c, x, CanonicalPublicKey(px), ProvisionalNoncePoint(provisional)).value;
    var combined := Add(c.n, nonce, contribution);
    SignedVerifies(c, key, combined, message);
    SameNonceSameSignature(c, px, message, final, SignatureWith(c, combined, secret, px, message));
  }

  lemma SameNonceSameSignature(c: Curve, px: seq<byte>, message: seq<byte>, a: Signature, b: Signature)
    requires c.Valid() && Verifies(c, px, message, a) && Verifies(c, px, message, b) && a.rx == b.rx
    ensures a == b
  {
    hide Mul, Add, Verifies;
    VerifiesMeans(c, px, message, a);
    VerifiesMeans(c, px, message, b);
  }
}
