/** Adaptor pre-signatures over BIP-340 (src/crypto/adaptor.rs). */
module Adaptor {
  import opened Common
  import opened SchnorrGroup

  datatype AdaptorError =
    | InvalidPrivateKey
    | InvalidAdaptorPoint
    | InvalidNonce
    | InvalidPreSignature
    | InvalidCompletedSignature
    | InvalidHostContribution

  /** A pre-signature; when `negated` the nonce expression was negated for an
      even nonce point, and completing subtracts the secret. */
  datatype PreSignature = PreSignature(sig: Signature, negated: bool)

  /** What a session binds besides the key. */
  datatype Session = Session(message: seq<byte>, adaptorX: seq<byte>, id: seq<byte>)

  function Require<T>(value: Option<T>, error: AdaptorError): Result<T, AdaptorError> {
    match value case None => Err(error) case Some(v) => Ok(v)
  }

  function EvenMultiple(c: Curve, raw: nat): Result<(nat, seq<byte>), AdaptorError>
    requires raw < c.n
  {
    var (x, odd) :- Require(c.XAndParity(raw), InvalidAdaptorPoint);
    Ok((if odd then Neg(c.n, raw) else raw, x))
  }

  /** The secret of the even adaptor point and that point's x coordinate. */
  function AdaptorPointFromSecret(c: Curve, secret: nat): (r: Result<(nat, seq<byte>), AdaptorError>)
    requires c.n > 0
  {
    var raw :- Require(c.FromCanonical(secret), InvalidPrivateKey);
    if raw == 0 then Err(InvalidPrivateKey) else EvenMultiple(c, raw)
  }

  function NonzeroReduced(c: Curve, data: seq<byte>, error: AdaptorError): (r: Result<nat, AdaptorError>)
    requires c.n > 0
    ensures r.Ok? ==> 0 < r.value < c.n
  {
    var scalar := c.Reduce(c.sha256(data));
    if scalar == 0 then Err(error) else Ok(scalar)
  }

  const NONCE_DOMAIN: string := "KaspaPortal Private Swap Adaptor Nonce v1\0"
  const HOST_DOMAIN: string := "KaspaPortal Private Swap Anti-Klepto v1\0"

  /** The bytes the device's nonce is hashed from. */
  function BaseNonceInput(secret: seq<byte>, px: seq<byte>, s: Session, aux: seq<byte>): seq<byte> {
    Ascii(NONCE_DOMAIN) + secret + px + s.message + s.adaptorX + s.id + aux
  }

  /** The bytes the host's contribution is hashed from. */
  function HostInput(s: Session, hostSecret: seq<byte>, px: seq<byte>, basePoint: seq<byte>): seq<byte> {
    Ascii(HOST_DOMAIN) + s.id + hostSecret + px + basePoint + s.message + s.adaptorX
  }

  function BaseNonceScalar(c: Curve, secret: nat, px: seq<byte>, s: Session, aux: seq<byte>): (r: Result<nat, AdaptorError>)
    requires c.n > 0
    ensures r.Ok? ==> 0 < r.value < c.n
  {
    NonzeroReduced(c, BaseNonceInput(c.encode(secret), px, s, aux), InvalidNonce)
  }

  function HostScalar(c: Curve, s: Session, hostSecret: seq<byte>, px: seq<byte>, basePoint: seq<byte>): (r: Result<nat, AdaptorError>)
    requires c.n > 0
    ensures r.Ok? ==> 0 < r.value < c.n
  {
    NonzeroReduced(c, HostInput(s, hostSecret, px, basePoint), InvalidHostContribution)
  }

  /** The lengths the source's arrays have. */
  predicate Sized(s: Session) {
    |s.message| == 32 && |s.adaptorX| == 32 && |s.id| == 16
  }

  /** The device's nonce is hashed from all that the session binds, and from
      nothing that two sessions could share unless they are the same. */
  lemma BaseNonceBindsEverything(secret: seq<byte>, px: seq<byte>, s: Session, aux: seq<byte>,
                                 secret': seq<byte>, px': seq<byte>, s': Session, aux': seq<byte>)
    requires Sized(s) && Sized(s') && |secret| == |secret'| == |px| == |px'| == |aux| == |aux'| == 32
    ensures BaseNonceInput(secret, px, s, aux) == BaseNonceInput(secret', px', s', aux')
       <==> secret == secret' && px == px' && s == s' && aux == aux'
  {
    hide Ascii;
    var d := Ascii(NONCE_DOMAIN);
    if BaseNonceInput(secret, px, s, aux) == BaseNonceInput(secret', px', s', aux') {
      FieldsApart(d + secret + px + s.message + s.adaptorX + s.id, aux, d + secret' + px' + s'.message + s'.adaptorX + s'.id, aux');
      FieldsApart(d + secret + px + s.message + s.adaptorX, s.id, d + secret' + px' + s'.message + s'.adaptorX, s'.id);
      FieldsApart(d + secret + px + s.message, s.adaptorX, d + secret' + px' + s'.message, s'.adaptorX);
      FieldsApart(d + secret + px, s.message, d + secret' + px', s'.message);
      FieldsApart(d + secret, px, d + secret', px');
      FieldsApart(d, secret, d, secret');
    }
  }

  /** So is the host's contribution. */
  lemma HostBindsEverything(s: Session, hostSecret: seq<byte>, px: seq<byte>, basePoint: seq<byte>,
                            s': Session, hostSecret': seq<byte>, px': seq<byte>, basePoint': seq<byte>)
    requires Sized(s) && Sized(s') && |hostSecret| == |hostSecret'| == |px| == |px'| == 32 && |basePoint| == |basePoint'| == 33
    ensures HostInput(s, hostSecret, px, basePoint) == HostInput(s', hostSecret', px', basePoint')
       <==> s == s' && hostSecret == hostSecret' && px == px' && basePoint == basePoint'
  {
    hide Ascii;
    var d := Ascii(HOST_DOMAIN);
    if HostInput(s, hostSecret, px, basePoint) == HostInput(s', hostSecret', px', basePoint') {
      FieldsApart(d + s.id + hostSecret + px + basePoint + s.message, s.adaptorX,
                  d + s'.id + hostSecret' + px' + basePoint' + s'.message, s'.adaptorX);
      FieldsApart(d + s.id + hostSecret + px + basePoint, s.message, d + s'.id + hostSecret' + px' + basePoint', s'.message);
      FieldsApart(d + s.id + hostSecret + px, basePoint, d + s'.id + hostSecret' + px', basePoint');
      FieldsApart(d + s.id + hostSecret, px, d + s'.id + hostSecret', px');
      FieldsApart(d + s.id, hostSecret, d + s'.id, hostSecret');
      FieldsApart(d, s.id, d, s'.id);
    }
  }

  /** The two are never hashed from the same bytes. */
  lemma DomainsAreApart(secret: seq<byte>, px: seq<byte>, s: Session, aux: seq<byte>,
                        s': Session, hostSecret: seq<byte>, px': seq<byte>, basePoint: seq<byte>)
    ensures BaseNonceInput(secret, px, s, aux) != HostInput(s', hostSecret, px', basePoint)
  {
    var a, b := BaseNonceInput(secret, px, s, aux), HostInput(s', hostSecret, px', basePoint);
    assert NONCE_DOMAIN[26] == 'd' && HOST_DOMAIN[26] == 'n';
    assert a[26] == Ascii(NONCE_DOMAIN)[26] && b[26] == Ascii(HOST_DOMAIN)[26];
  }

  /** The nonce point the device commits to before the host reveals its secret. */
  function BaseNoncePoint(c: Curve, key: nat, s: Session, aux: seq<byte>): Result<seq<byte>, AdaptorError>
    requires c.n > 0
  {
    var (secret, px) :- Require(Normalized(c, key), InvalidPrivateKey);
    var _ :- Require(c.lift(s.adaptorX), InvalidAdaptorPoint);
    var nonce :- BaseNonceScalar(c, secret, px, s, aux);
    Ok(c.Compress(nonce))
  }

  function VerifyPreSignature(c: Curve, px: seq<byte>, s: Session, presig: PreSignature): (r: Result<(), AdaptorError>)
    requires c.n > 0
  {
    var p :- Require(c.lift(px), InvalidAdaptorPoint);
    var t :- Require(c.lift(s.adaptorX), InvalidAdaptorPoint);
    var r :- Require(c.lift(presig.sig.rx), InvalidAdaptorPoint);
    var response :- Require(c.FromCanonical(presig.sig.s), InvalidPreSignature);
    if p >= c.n || t >= c.n || r >= c.n then Err(InvalidAdaptorPoint)
    else
      var e := c.Challenge(presig.sig.rx, px, s.message);
      var signedT := if presig.negated then Neg(c.n, t) else t;
      if response == Add(c.n, Sub(c.n, r, signedT), Mul(c.n, p, e)) then Ok(()) else Err(InvalidPreSignature)
  }

  /** The combined nonce of device and host, and the pre-signature made with it. */
  function CreatePreSignature(c: Curve, key: nat, s: Session, aux: seq<byte>, hostSecret: seq<byte>): Result<PreSignature, AdaptorError>
    requires c.n > 0
  {
    var (secret, px) :- Require(Normalized(c, key), InvalidPrivateKey);
    var t :- Require(c.lift(s.adaptorX), InvalidAdaptorPoint);
    var base :- BaseNonceScalar(c, secret, px, s, aux);
    var host :- HostScalar(c, s, hostSecret, px, c.Compress(base));
    var combined := Add(c.n, base, host);
    if combined == 0 then Err(InvalidHostContribution)
    else if t >= c.n then Err(InvalidAdaptorPoint)
    else
      var candidate := Add(c.n, combined, t);
      var (rx, odd) :- Require(c.XAndParity(candidate), InvalidNonce);
      var signedNonce := if odd then Neg(c.n, combined) else combined;
      var response := Add(c.n, signedNonce, Mul(c.n, c.Challenge(rx, px, s.message), secret));
      var presig := PreSignature(Signature(rx, response), odd);
      var _ :- VerifyPreSignature(c, px, s, presig);
      Ok(presig)
  }

  function Complete(c: Curve, presig: PreSignature, adaptorSecret: nat): Result<Signature, AdaptorError>
    requires c.n > 0
  {
    var t :- Require(c.FromCanonical(adaptorSecret), InvalidAdaptorPoint);
    if t == 0 then Err(InvalidAdaptorPoint)
    else
      var response :- Require(c.FromCanonical(presig.sig.s), InvalidPreSignature);
      Ok(presig.sig.(s := if presig.negated then Sub(c.n, response, t) else Add(c.n, response, t)))
  }

  function ExtractSecret(c: Curve, completed: Signature, presig: PreSignature): Result<nat, AdaptorError>
    requires c.n > 0
  {
    if completed.rx != presig.sig.rx then Err(InvalidCompletedSignature)
    else
      var s :- Require(c.FromCanonical(completed.s), InvalidCompletedSignature);
      var prime :- Require(c.FromCanonical(presig.sig.s), InvalidPreSignature);
      var delta := Sub(c.n, s, prime);
      if delta == 0 then Err(InvalidCompletedSignature)
      else Ok(if presig.negated then Neg(c.n, delta) else delta)
  }

  function VerifyHostNonceRelation(c: Curve, px: seq<byte>, s: Session, hostSecret: seq<byte>, basePoint: seq<byte>, presig: PreSignature)
    : Result<(), AdaptorError>
    requires c.n > 0
  {
    var base :- Require(c.Decompress(basePoint), InvalidNonce);
    var t :- Require(c.lift(s.adaptorX), InvalidAdaptorPoint);
    var r :- Require(c.lift(presig.sig.rx), InvalidAdaptorPoint);
    var host :- HostScalar(c, s, hostSecret, px, basePoint);
    if base >= c.n || t >= c.n || r >= c.n then Err(InvalidNonce)
    else
      var expected := Add(c.n, base, host);
      var signedT := if presig.negated then Neg(c.n, t) else t;
      var left := Sub(c.n, r, signedT);
      if expected == (if presig.negated then Neg(c.n, left) else left) then Ok(()) else Err(InvalidHostContribution)
  }

  // ----- Any pre-signature that verifies -----

  /** The adaptor secret of a session: the multiple of the even adaptor point. */
  predicate IsAdaptorSecret(c: Curve, s: Session, t: nat) {
    c.lift(s.adaptorX) == Some(t)
  }

  /** The secret derived for an adaptor point is that point's. */
  lemma DerivedSecretIsThePoints(c: Curve, secret: nat, s: Session)
    requires c.Valid() && 0 < secret < c.n
    ensures AdaptorPointFromSecret(c, secret).Ok?
    ensures var (t, x) := AdaptorPointFromSecret(c, secret).value;
            s.adaptorX == x ==> IsAdaptorSecret(c, s, t)
  {
    EvenIsLifted(c, secret);
  }

  function Signed(n: nat, t: nat, negated: bool): (r: nat)
    requires t < n
    ensures r < n
  {
    if negated then Neg(n, t) else t
  }

  lemma PreVerifiesMeans(c: Curve, px: seq<byte>, s: Session, presig: PreSignature)
    requires c.Valid()
    ensures VerifyPreSignature(c, px, s, presig).Ok? <==>
            && c.lift(px).Some? && c.lift(s.adaptorX).Some? && c.lift(presig.sig.rx).Some?
            && presig.sig.s == Add(c.n, Sub(c.n, c.lift(presig.sig.rx).value, Signed(c.n, c.lift(s.adaptorX).value, presig.negated)),
                                   Mul(c.n, c.Challenge(presig.sig.rx, px, s.message), c.lift(px).value))
  {
    ProductCommutes(c, px, s, presig);
    hide Mul, Add;
  }

  lemma ProductCommutes(c: Curve, px: seq<byte>, s: Session, presig: PreSignature)
    requires c.Valid()
    ensures c.lift(px).Some? ==>
              var e, p := c.Challenge(presig.sig.rx, px, s.message), c.lift(px).value;
              Mul(c.n, p, e) == Mul(c.n, e, p)
  {
  }

  /** Adding the signed secret back to the response, and taking it out again. */
  lemma CompletedResponse(n: nat, r: nat, t: nat, m: nat, negated: bool)
    requires r < n && 0 < t < n && m < n
    ensures var response := Add(n, Sub(n, r, Signed(n, t, negated)), m);
            var completed := if negated then Sub(n, response, t) else Add(n, response, t);
            var delta := Sub(n, completed, response);
            completed == Add(n, r, m) && delta != 0 && Signed(n, delta, negated) == t
  {
  }

  /** Completing a pre-signature that verifies, with the adaptor secret, gives a
      BIP-340 signature, and the secret can be read back from it. */
  lemma VerifiedCompletes(c: Curve, px: seq<byte>, s: Session, presig: PreSignature, t: nat)
    requires c.Valid() && VerifyPreSignature(c, px, s, presig).Ok? && IsAdaptorSecret(c, s, t)
    ensures Complete(c, presig, t).Ok?
    ensures Verifies(c, px, s.message, Complete(c, presig, t).value)
    ensures ExtractSecret(c, Complete(c, presig, t).value, presig) == Ok(t)
  {
    hide Mul, Add, Neg, Sub, Verifies, VerifyPreSignature;
    PreVerifiesMeans(c, px, s, presig);
    CompletedResponse(c.n, c.lift(presig.sig.rx).value, t,
                      Mul(c.n, c.Challenge(presig.sig.rx, px, s.message), c.lift(px).value), presig.negated);
    VerifiesMeans(c, px, s.message, Complete(c, presig, t).value);
  }

  /** And whoever publishes any BIP-340 signature with that nonce reveals the
      adaptor secret: there is no other way to complete a pre-signature. */
  lemma CompletionRevealsTheSecret(c: Curve, px: seq<byte>, s: Session, presig: PreSignature, completed: Signature, t: nat)
    requires c.Valid() && VerifyPreSignature(c, px, s, presig).Ok? && IsAdaptorSecret(c, s, t)
    requires Verifies(c, px, s.message, completed) && completed.rx == presig.sig.rx
    ensures completed == Complete(c, presig, t).value && ExtractSecret(c, completed, presig) == Ok(t)
  {
    hide Mul, Add, Verifies, VerifyPreSignature;
    VerifiedCompletes(c, px, s, presig, t);
    VerifiesMeans(c, px, s.message, completed);
    VerifiesMeans(c, px, s.message, Complete(c, presig, t).value);
  }

  // ----- Pre-signatures that are created -----

  /** A pre-signature is refused only for one of the reasons listed; in
      particular its own verification at the end never fails. */
  lemma CreationOutcome(c: Curve, key: nat, s: Session, aux: seq<byte>, hostSecret: seq<byte>)
    requires c.Valid()
    ensures var r := CreatePreSignature(c, key, s, aux, hostSecret);
            && (r == Err(InvalidPrivateKey) <==> key == 0 || key >= c.n)
            && (r.Ok? ==> VerifyPreSignature(c, c.x(key), s, r.value).Ok?)
            && (r == Err(InvalidAdaptorPoint) <==> 0 < key < c.n && c.lift(s.adaptorX).None?)
            && r != Err(InvalidPreSignature) && r != Err(InvalidCompletedSignature)
  {
    hide Mul, BaseNonceScalar, HostScalar;
    if 0 < key < c.n && c.lift(s.adaptorX).Some? {
      NormalizedKey(c, key);
      var (secret, px) := Normalized(c, key).value;
      var base := BaseNonceScalar(c, secret, px, s, aux);
      if base.Ok? {
        var host := HostScalar(c, s, hostSecret, px, c.Compress(base.value));
        if host.Ok? {
          var combined := Add(c.n, base.value, host.value);
          if combined != 0 && Add(c.n, combined, c.lift(s.adaptorX).value) != 0 {
            CombinedVerifies(c, px, s, combined);
          }
        }
        NonzeroReducedError(c, s, hostSecret, px, c.Compress(base.value));
      }
      BaseNonceError(c, secret, px, s, aux);
    }
  }

  lemma NonzeroReducedError(c: Curve, s: Session, hostSecret: seq<byte>, px: seq<byte>, basePoint: seq<byte>)
    requires c.n > 0
    ensures var r := HostScalar(c, s, hostSecret, px, basePoint); r.Err? ==> r.error == InvalidHostContribution
  {
  }

  lemma BaseNonceError(c: Curve, secret: nat, px: seq<byte>, s: Session, aux: seq<byte>)
    requires c.n > 0
    ensures var r := BaseNonceScalar(c, secret, px, s, aux); r.Err? ==> r.error == InvalidNonce
  {
  }

  /** The pre-signature that a combined nonce gives. */
  function FromNonce(c: Curve, px: seq<byte>, s: Session, combined: nat, t: nat, secret: nat): PreSignature
    requires c.n > 0 && combined < c.n && t < c.n && secret < c.n
  {
    var candidate := Add(c.n, combined, t);
    var odd, rx := c.odd(candidate), c.x(candidate);
    PreSignature(Signature(rx, Add(c.n, if odd then Neg(c.n, combined) else combined,
                                   Mul(c.n, c.Challenge(rx, px, s.message), secret))), odd)
  }

  /** The even nonce point, less the signed adaptor point, is the signed nonce. */
  lemma NonceSplits(c: Curve, combined: nat, t: nat)
    requires c.Valid() && combined < c.n && t < c.n && Add(c.n, combined, t) != 0
    ensures var candidate := Add(c.n, combined, t);
            Sub(c.n, Even(c, candidate), Signed(c.n, t, c.odd(candidate))) == Signed(c.n, combined, c.odd(candidate))
  {
  }

  lemma CombinedVerifies(c: Curve, px: seq<byte>, s: Session, combined: nat)
    requires c.Valid() && c.lift(px).Some? && c.lift(s.adaptorX).Some? && combined < c.n
    requires Add(c.n, combined, c.lift(s.adaptorX).value) != 0
    ensures VerifyPreSignature(c, px, s, FromNonce(c, px, s, combined, c.lift(s.adaptorX).value, c.lift(px).value)).Ok?
  {
    hide Mul, Add, Neg, Sub, Even, VerifyPreSignature;
    var t := c.lift(s.adaptorX).value;
    EvenIsLifted(c, Add(c.n, combined, t));
    NonceSplits(c, combined, t);
    PreVerifiesMeans(c, px, s, FromNonce(c, px, s, combined, t, c.lift(px).value));
  }

  /** Creation succeeds exactly when key and adaptor point are valid and none of
      the nonces it forms on the way is zero. */
  lemma CreationSucceedsExactly(c: Curve, key: nat, s: Session, aux: seq<byte>, hostSecret: seq<byte>, t: nat)
    requires c.Valid() && 0 < key < c.n && IsAdaptorSecret(c, s, t)
    ensures CreatePreSignature(c, key, s, aux, hostSecret).Ok? <==>
            var (secret, px) := Normalized(c, key).value;
            var base := BaseNonceScalar(c, secret, px, s, aux);
            && base.Ok? && HostScalar(c, s, hostSecret, px, c.Compress(base.value)).Ok?
            && var combined := Add(c.n, base.value, HostScalar(c, s, hostSecret, px, c.Compress(base.value)).value);
               combined != 0 && Add(c.n, combined, t) != 0
  {
    hide Mul, Add, Neg, Sub, BaseNonceScalar, HostScalar, VerifyPreSignature;
    NormalizedKey(c, key);
    var (secret, px) := Normalized(c, key).value;
    var base := BaseNonceScalar(c, secret, px, s, aux);
    if base.Ok? && HostScalar(c, s, hostSecret, px, c.Compress(base.value)).Ok? {
      var combined := Add(c.n, base.value, HostScalar(c, s, hostSecret, px, c.Compress(base.value)).value);
      if combined != 0 && Add(c.n, combined, t) != 0 { CombinedVerifies(c, px, s, combined); }
    }
  }

  /** The whole exchange, for both parities of the nonce point: what the device
      creates verifies, is accepted by the host against the committed base nonce,
      completes to a BIP-340 signature of the same key and message, and gives the
      adaptor secret back. */
  lemma ExchangeSucceeds(c: Curve, key: nat, s: Session, aux: seq<byte>, hostSecret: seq<byte>, t: nat)
    requires c.Valid() && CreatePreSignature(c, key, s, aux, hostSecret).Ok? && IsAdaptorSecret(c, s, t)
    ensures var presig := CreatePreSignature(c, key, s, aux, hostSecret).value;
            && VerifyPreSignature(c, c.x(key), s, presig).Ok?
            && BaseNoncePoint(c, key, s, aux).Ok?
            && VerifyHostNonceRelation(c, c.x(key), s, hostSecret, BaseNoncePoint(c, key, s, aux).value, presig).Ok?
            && Complete(c, presig, t).Ok?
            && Verifies(c, c.x(key), s.message, Complete(c, presig, t).value)
            && ExtractSecret(c, Complete(c, presig, t).value, presig) == Ok(t)
  {
    hide Mul, Verifies, BaseNonceScalar, HostScalar;
    var presig := CreatePreSignature(c, key, s, aux, hostSecret).value;
    CreationOutcome(c, key, s, aux, hostSecret);
    VerifiedCompletes(c, c.x(key), s, presig, t);
    HostAccepts(c, key, s, aux, hostSecret);
  }

  lemma HostAccepts(c: Curve, key: nat, s: Session, aux: seq<byte>, hostSecret: seq<byte>)
    requires c.Valid() && CreatePreSignature(c, key, s, aux, hostSecret).Ok?
    ensures BaseNoncePoint(c, key, s, aux).Ok?
    ensures VerifyHostNonceRelation(c, c.x(key), s, hostSecret, BaseNoncePoint(c, key, s, aux).value,
                                    CreatePreSignature(c, key, s, aux, hostSecret).value).Ok?
  {
    hide Mul, Add, Neg, Sub, Even, BaseNonceScalar, HostScalar, VerifyPreSignature, VerifyHostNonceRelation,
      Curve.Compress, Curve.Decompress;
    var (secret, px) := Normalized(c, key).value;
    var base := BaseNonceScalar(c, secret, px, s, aux).value;
    var host := HostScalar(c, s, hostSecret, px, c.Compress(base)).value;
    var t := c.lift(s.adaptorX).value;
    EvenIsLifted(c, Add(c.n, Add(c.n, base, host), t));
    EvenIsSigned(c, Add(c.n, Add(c.n, base, host), t));
    HostAcceptsExactly(c, px, s, hostSecret, base, CreatePreSignature(c, key, s, aux, hostSecret).value, t);
  }

  lemma EvenIsSigned(c: Curve, p: nat)
    requires p < c.n
    ensures Even(c, p) == Signed(c.n, p, c.odd(p))
  {
  }

  /** Undoing the sign and the adaptor point leaves the combined nonce point. */
  lemma RecoveredNonce(n: nat, sum: nat, r: nat, t: nat, negated: bool)
    requires sum < n && r < n && 0 < t < n
    ensures var left := Sub(n, r, Signed(n, t, negated));
            sum == Signed(n, left, negated) <==> r == Signed(n, Add(n, sum, t), negated)
  {
  }

  /** The host accepts exactly the pre-signatures whose nonce point is, up to the
      recorded sign, the committed point plus its own contribution plus the
      adaptor point. */
  lemma HostAcceptsExactly(c: Curve, px: seq<byte>, s: Session, hostSecret: seq<byte>, base: nat, presig: PreSignature, t: nat)
    requires c.Valid() && 0 < base < c.n && IsAdaptorSecret(c, s, t)
    ensures VerifyHostNonceRelation(c, px, s, hostSecret, c.Compress(base), presig).Ok? <==>
            && HostScalar(c, s, hostSecret, px, c.Compress(base)).Ok? && c.lift(presig.sig.rx).Some?
            && var sum := Add(c.n, base, HostScalar(c, s, hostSecret, px, c.Compress(base)).value);
               c.lift(presig.sig.rx).value == Signed(c.n, Add(c.n, sum, t), presig.negated)
  {
    Decompressed(c, base);
    hide Curve.Compress, Curve.Decompress, HostScalar, Add, Neg, Sub;
    var host := HostScalar(c, s, hostSecret, px, c.Compress(base));
    if host.Ok? && c.lift(presig.sig.rx).Some? {
      RecoveredNonce(c.n, Add(c.n, base, host.value), c.lift(presig.sig.rx).value, t, presig.negated);
    }
  }
}
