/** Scalars modulo a prime, points as multiples of a generator, and signatures
    and their verification as in BIP-340, sections "Default Signing" and
    "Verification" (src/crypto). A point is represented by its multiple. */
module SchnorrGroup {
  import opened Common
  import opened Bits

  // ----- Arithmetic modulo n -----

  function Add(n: nat, a: nat, b: nat): (r: nat)
    requires a < n && b < n
    ensures r < n
  {
    if a + b < n then a + b else a + b - n
  }

  function Neg(n: nat, a: nat): (r: nat)
    requires a < n
    ensures r < n && (r == 0 <==> a == 0)
  {
    if a == 0 then 0 else n - a
  }

  function Sub(n: nat, a: nat, b: nat): (r: nat)
    requires a < n && b < n
    ensures r < n
  {
    Add(n, a, Neg(n, b))
  }

  function Mul(n: nat, a: nat, b: nat): (r: nat)
    requires a < n && b < n
    ensures r < n
  {
    a * b % n
  }

  ghost predicate Prime(n: nat) {
    n > 1 && forall d :: 1 < d < n ==> n % d != 0
  }

  /** `n` divides `x`. */
  ghost predicate Divides(n: nat, x: int) {
    exists k: int :: x == k * n
  }

  lemma DividesCombination(n: nat, x: int, y: int, q: int)
    requires Divides(n, x) && Divides(n, y)
    ensures Divides(n, x - q * y)
  {
    var k :| x == k * n;
    var l :| y == l * n;
    assert x - q * y == (k - q * l) * n;
  }

  /** A prime that divides a product of a smaller number divides the other factor. */
  lemma {:induction false} Euclid(n: nat, a: nat, b: int)
    requires Prime(n) && 0 < a < n && Divides(n, a * b)
    ensures Divides(n, b)
    decreases a
  {
    if a == 1 {
      assert a * b == b;
    } else {
      var q, r := n / a, n % a;
      assert n == q * a + r;
      assert r * b == b * n - q * (a * b);
      assert Divides(n, b * n);
      DividesCombination(n, b * n, a * b, q);
      Euclid(n, r, b);
    }
  }

  lemma MultipleIsFar(k: int, n: nat)
    ensures k >= 1 ==> k * n >= n
    ensures k <= -1 ==> k * n + n <= 0
  {
  }

  lemma SmallMultiple(n: nat, x: int)
    requires n > 0 && Divides(n, x) && x < n && 0 < x + n
    ensures x == 0
  {
    var k :| x == k * n;
    MultipleIsFar(k, n);
  }

  lemma ModDivides(n: nat, x: nat, y: nat)
    requires n > 0 && x % n == y % n
    ensures Divides(n, x - y)
  {
    assert x == x / n * n + x % n && y == y / n * n + y % n;
    assert x - y == (x / n - y / n) * n;
  }

  /** In a prime field two squares agree exactly when the roots agree up to sign. */
  lemma EqualSquares(n: nat, a: nat, b: nat)
    requires Prime(n) && a < n && b < n
    ensures Mul(n, a, a) == Mul(n, b, b) <==> (a == b || a == Neg(n, b))
  {
    if Mul(n, a, a) == Mul(n, b, b) && a != b {
      ModDivides(n, a * a, b * b);
      ModDivides(n, b * b, a * a);
      RootsOfEqualSquares(n, if a < b then b else a, if a < b then a else b);
    }
    if a == Neg(n, b) && a != 0 {
      assert a * a == b * b + (n - 2 * b) * n;
      ModPlus(b * b, n - 2 * b, n);
    }
  }

  lemma RootsOfEqualSquares(n: nat, big: nat, small: nat)
    requires Prime(n) && small < big < n && Divides(n, big * big - small * small)
    ensures big == Neg(n, small) && small == Neg(n, big)
  {
    assert big * big - small * small == (big - small) * (big + small);
    Euclid(n, big - small, big + small);
    assert Divides(n, 1 * n) by { assert 1 * n == 1 * n; }
    DividesCombination(n, big + small, 1 * n, 1);
    SmallMultiple(n, big + small - n);
  }

  lemma ModPlus(x: nat, k: int, n: nat)
    requires n > 0 && x + k * n >= 0
    ensures (x + k * n) % n == x % n
  {
    var q, r := (x + k * n) / n, (x + k * n) % n;
    assert x + k * n == q * n + r;
    assert x == x / n * n + x % n;
    assert r - x % n == (x / n - q + k) * n;
    assert Divides(n, r - x % n);
    SmallMultiple(n, r - x % n);
  }

  // ----- The curve and its hash -----

  /** What is known of the curve: the order of the generator, the x coordinate and
      parity of each point, the even point with a given x, and the encodings and
      the hash that messages go through. */
  datatype Curve = Curve(
    n: nat,
    x: nat -> seq<byte>,
    odd: nat -> bool,
    lift: seq<byte> -> Option<nat>,
    encode: nat -> seq<byte>,
    sha256: seq<byte> -> seq<byte>,
    number: seq<byte> -> nat,
    refusesZero: bool)  // what the signature library makes of a zero response
  {
    /** The laws of an elliptic curve of prime order: a point and its negative,
        and no others, share an x coordinate; they differ in parity. */
    ghost predicate Valid() {
      && Prime(n) && n > 2
      && (forall p, q :: 0 < p < n && 0 < q < n ==> (x(p) == x(q) <==> p == q || p + q == n))
      && (forall p :: 0 < p < n ==> |x(p)| == 32 && odd(p) != odd(n - p))
      && (forall p :: 0 < p < n && !odd(p) ==> lift(x(p)) == Some(p))
      && (forall b :: lift(b).Some? ==> 0 < lift(b).value < n && !odd(lift(b).value) && x(lift(b).value) == b)
    }

    /** A digest as a scalar. */
    function Reduce(digest: seq<byte>): (r: nat)
      requires n > 0
      ensures r < n
    {
      number(digest) % n
    }

    function TaggedHash(tag: string, data: seq<byte>): seq<byte> {
      var t := sha256(Ascii(tag));
      sha256(t + t + data)
    }

    function Challenge(rx: seq<byte>, px: seq<byte>, message: seq<byte>): (e: nat)
      requires n > 0
      ensures e < n
    {
      Reduce(TaggedHash("BIP0340/challenge", ChallengeInput(rx, px, message)))
    }

    /** The SEC1 compressed encoding. */
    function Compress(p: nat): seq<byte> {
      [if odd(p) then 0x03 else 0x02] + x(p)
    }

    function Decompress(encoded: seq<byte>): (p: Option<nat>)
    {
      if |encoded| != 33 || encoded[0] !in {0x02, 0x03} then None
      else
        var even :- lift(encoded[1..]);
        Some(if encoded[0] == 0x03 && even < n then Neg(n, even) else even)
    }

    /** The x coordinate and parity of a point other than the identity. */
    function XAndParity(p: nat): Option<(seq<byte>, bool)> {
      if p == 0 then None else Some((x(p), odd(p)))
    }

    /** A 32-byte number, when it is below the order. */
    function FromCanonical(value: nat): (r: Option<nat>)
      ensures r.Some? ==> r.value < n
    {
      if value < n then Some(value) else None
    }
  }

  function Ascii(text: string): seq<byte> {
    seq(|text|, i requires 0 <= i < |text| => text[i] as int % 0x100)
  }

  /** Joined fields of fixed lengths determine the fields. */
  lemma FieldsApart(a: seq<byte>, b: seq<byte>, a': seq<byte>, b': seq<byte>)
    requires |a| == |a'| || |b| == |b'|
    requires a + b == a' + b'
    ensures a == a' && b == b'
  {
    assert |a| == |a'|;
    assert a == (a + b)[..|a|] && b == (a + b)[|a|..];
    assert a' == (a' + b')[..|a|] && b' == (a' + b')[|a|..];
  }

  /** The bytes a challenge is hashed from. */
  function ChallengeInput(rx: seq<byte>, px: seq<byte>, message: seq<byte>): seq<byte> {
    rx + px + message
  }

  /** A challenge binds nonce point, key and message. */
  lemma ChallengeBindsEverything(rx: seq<byte>, px: seq<byte>, message: seq<byte>, rx': seq<byte>, px': seq<byte>, message': seq<byte>)
    requires |rx| == |rx'| == |px| == |px'| == |message| == |message'| == 32
    ensures ChallengeInput(rx, px, message) == ChallengeInput(rx', px', message') <==> rx == rx' && px == px' && message == message'
  {
    if ChallengeInput(rx, px, message) == ChallengeInput(rx', px', message') {
      FieldsApart(rx + px, message, rx' + px', message');
      FieldsApart(rx, px, rx', px');
    }
  }

  function XorByte(a: byte, b: byte): byte {
    assert Pow2(8) == 0x100;
    XorFits(a, b, 8);
    Xor(a, b)
  }

  function Masked(a: seq<byte>, mask: seq<byte>): seq<byte> {
    var length := if |a| <= |mask| then |a| else |mask|;
    seq(length, i requires 0 <= i < length => XorByte(a[i], mask[i]))
  }

  /** The bytes a default nonce is hashed from. */
  function NonceInput(secret: seq<byte>, mask: seq<byte>, px: seq<byte>, message: seq<byte>): seq<byte> {
    Masked(secret, mask) + px + message
  }

  lemma MaskedBytes(a: byte, b: byte, mask: byte)
    requires XorByte(a, mask) == XorByte(b, mask)
    ensures a == b
  {
    XorCancels(a, mask);
    XorCancels(b, mask);
  }

  /** With one mask, a default nonce binds secret, key and message. */
  lemma NonceBindsEverything(secret: seq<byte>, px: seq<byte>, message: seq<byte>,
                             secret': seq<byte>, px': seq<byte>, message': seq<byte>, mask: seq<byte>)
    requires |secret| == |secret'| == |px| == |px'| == |message| == |message'| == |mask| == 32
    ensures NonceInput(secret, mask, px, message) == NonceInput(secret', mask, px', message')
       <==> secret == secret' && px == px' && message == message'
  {
    hide XorByte;
    if NonceInput(secret, mask, px, message) == NonceInput(secret', mask, px', message') {
      var m, m' := Masked(secret, mask), Masked(secret', mask);
      FieldsApart(m + px, message, m' + px', message');
      FieldsApart(m, px, m', px');
      forall i | 0 <= i < 32 ensures secret[i] == secret'[i] {
        assert m[i] == m'[i];
        MaskedBytes(secret[i], secret'[i], mask[i]);
      }
    }
  }

  /** A signature: the x coordinate of the nonce point, and the response as the
      number its 32 bytes spell. */
  datatype Signature = Signature(rx: seq<byte>, s: nat)

  /** The even one of a point and its negative. */
  function Even(c: Curve, p: nat): (r: nat)
    requires p < c.n
    ensures r < c.n
  {
    if c.odd(p) then Neg(c.n, p) else p
  }

  lemma EvenIsLifted(c: Curve, p: nat)
    requires c.Valid() && 0 < p < c.n
    ensures 0 < Even(c, p) && c.lift(c.x(p)) == Some(Even(c, p)) && c.x(Even(c, p)) == c.x(p)
  {
    var e := Even(c, p);
    assert e == p || p + e == c.n;
    assert c.x(e) == c.x(p);
    assert !c.odd(e);
  }

  lemma Decompressed(c: Curve, p: nat)
    requires c.Valid() && 0 < p < c.n
    ensures c.Decompress(c.Compress(p)) == Some(p)
  {
    EvenIsLifted(c, p);
    assert c.Compress(p)[1..] == c.x(p);
  }

  // ----- BIP-340 -----

  /** Verification: the point that the response leaves is even and has the
      signature's x coordinate. */
  predicate Verifies(c: Curve, px: seq<byte>, message: seq<byte>, sig: Signature)
    requires c.n > 0
  {
    var p := c.lift(px);
    && p.Some? && p.value < c.n && sig.s < c.n
    && var r := Sub(c.n, sig.s, Mul(c.n, c.Challenge(sig.rx, px, message), p.value));
       r != 0 && !c.odd(r) && c.x(r) == sig.rx
  }

  /** Verification by the library, which may in addition refuse a zero response. */
  predicate LibraryVerifies(c: Curve, px: seq<byte>, message: seq<byte>, sig: Signature)
    requires c.n > 0
  {
    Verifies(c, px, message, sig) && !(c.refusesZero && sig.s == 0)
  }

  /** That is: the response is the signature's nonce plus challenge times key. */
  lemma VerifiesMeans(c: Curve, px: seq<byte>, message: seq<byte>, sig: Signature)
    requires c.Valid()
    ensures Verifies(c, px, message, sig) <==>
            && c.lift(px).Some? && c.lift(sig.rx).Some?
            && sig.s == Add(c.n, c.lift(sig.rx).value, Mul(c.n, c.Challenge(sig.rx, px, message), c.lift(px).value))
  {
    hide Mul;
  }

  /** The private key with an even public point, and that point's x coordinate. */
  function Normalized(c: Curve, key: nat): (r: Option<(nat, seq<byte>)>)
    ensures r.Some? <==> 0 < key < c.n
    ensures r.Some? ==> r.value.0 < c.n
  {
    if key == 0 || key >= c.n then None else Some((Even(c, key), c.x(key)))
  }

  lemma NormalizedKey(c: Curve, key: nat)
    requires c.Valid() && 0 < key < c.n
    ensures var (secret, px) := Normalized(c, key).value;
            0 < secret < c.n && c.lift(px) == Some(secret)
  {
    EvenIsLifted(c, key);
  }

  /** The nonce of default signing, before it is negated for an even point. */
  function DefaultNonce(c: Curve, secret: nat, px: seq<byte>, message: seq<byte>, aux: seq<byte>): (k: nat)
    requires c.n > 0
    ensures k < c.n
  {
    c.Reduce(c.TaggedHash("BIP0340/nonce", NonceInput(c.encode(secret), c.TaggedHash("BIP0340/aux", aux), px, message)))
  }

  /** Default signing; none for an invalid key or a zero nonce. */
  function DefaultSign(c: Curve, key: nat, message: seq<byte>, aux: seq<byte>): Option<Signature>
    requires c.n > 0
  {
    var (secret, px) :- Normalized(c, key);
    var k := DefaultNonce(c, secret, px, message, aux);
    if k == 0 then None
    else Some(Signature(c.x(k), Add(c.n, Even(c, k), Mul(c.n, c.Challenge(c.x(k), px, message), secret))))
  }

  /** Default signatures verify. */
  lemma DefaultSignaturesVerify(c: Curve, key: nat, message: seq<byte>, aux: seq<byte>)
    requires c.Valid() && DefaultSign(c, key, message, aux).Some?
    ensures Verifies(c, c.x(key), message, DefaultSign(c, key, message, aux).value)
  {
    hide Mul;
    NormalizedKey(c, key);
    var (secret, px) := Normalized(c, key).value;
    EvenIsLifted(c, DefaultNonce(c, secret, px, message, aux));
    VerifiesMeans(c, px, message, DefaultSign(c, key, message, aux).value);
  }

  /** The laws can be met: a curve of three points. */
  lemma SomeCurve() returns (c: Curve)
    ensures c.Valid()
  {
    var zeros := seq(32, _ => 0 as byte);
    c := Curve(3, _ => zeros, p => p == 2, b => if b == zeros then Some(1) else None, _ => [], b => b, _ => 0, true);
    assert forall d :: 1 < d < 3 ==> 3 % d != 0 by { assert 3 % 2 == 1; }
  }
}
