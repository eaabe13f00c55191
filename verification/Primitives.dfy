/** The cryptographic library calls, uninterpreted: a record of functions and the laws assumed of them. Every
    result that needs a law asks for it by name; `Toy` shows that the laws can hold together. */
module Primitives {
  import opened Common
  import opened Words

  const KEY_LEN: nat := 32
  const NONCE_LEN: nat := 24
  const SALT_LEN: nat := 16

  /** Argon2id cost parameters. */
  datatype KdfParams = KdfParams(mCostKib: nat, tCost: nat, pCost: nat)

  /** KdfParams::default(). */
  const DEFAULT_PARAMS: KdfParams := KdfParams(65536, 3, 4)

  /** ASCII bytes of "sylva.2skd.v1" and "sylva.sealedbox.v1". */
  const HKDF_INFO: Bytes := [115, 121, 108, 118, 97, 46, 50, 115, 107, 100, 46, 118, 49]
  const SEALBOX_INFO: Bytes := [115, 121, 108, 118, 97, 46, 115, 101, 97, 108, 101, 100, 98, 111, 120, 46, 118, 49]

  datatype Suite = Suite(
    /** Argon2id(password, salt, params): None when the library refuses the salt or the parameters. */
    argon2id: (Bytes, Bytes, KdfParams) -> Option<Bytes>,
    /** HKDF-SHA256(salt, ikm, info), 32 bytes of output. */
    hkdf: (Option<Bytes>, Bytes, Bytes) -> Bytes,
    /** XChaCha20-Poly1305(key, nonce, plaintext): None only for an oversized plaintext. */
    encrypt: (Bytes, Bytes, Bytes) -> Option<Bytes>,
    decrypt: (Bytes, Bytes, Bytes) -> Option<Bytes>,
    maxPlaintext: nat,
    /** X25519: public key of a secret, and the shared secret of a secret and a public key. */
    x25519Public: Bytes -> Bytes,
    x25519: (Bytes, Bytes) -> Bytes,
    /** Ed25519: public key of a seed, key decoding, signing and strict verification. */
    ed25519Public: Bytes -> Bytes,
    ed25519IsKey: Bytes -> bool,
    ed25519Sign: (Bytes, Bytes) -> Bytes,
    ed25519Verify: (Bytes, Bytes, Bytes) -> bool,
    /** The passwords among which Argon2id is taken to be free of collisions. Not every string can be in
        it: there are more strings than 32-byte outputs. */
    passwords: iset<Bytes>)

  // ---- Laws ----

  ghost predicate OutputLengths(c: Suite) {
    && (forall pw, salt, params ::
          c.argon2id(pw, salt, params).Some? ==> |c.argon2id(pw, salt, params).value| == KEY_LEN)
    && (forall salt, ikm, info :: |c.hkdf(salt, ikm, info)| == KEY_LEN)
    && (forall secret :: |c.x25519Public(secret)| == KEY_LEN)
    && (forall seed :: |c.ed25519Public(seed)| == KEY_LEN)
    && (forall seed, message :: |c.ed25519Sign(seed, message)| == 64)
  }

  /** Encryption fails only on size, and decryption under the same key and nonce inverts it. */
  ghost predicate AeadInverts(c: Suite) {
    && c.maxPlaintext >= KEY_LEN
    && (forall k, n, p :: c.encrypt(k, n, p).Some? <==> |p| <= c.maxPlaintext)
    && (forall k, n, p :: c.encrypt(k, n, p).Some? ==> c.decrypt(k, n, c.encrypt(k, n, p).value) == Some(p))
  }

  /** A ciphertext opens under no other key. */
  ghost predicate AeadCommits(c: Suite) {
    forall k, k', n, p | c.encrypt(k, n, p).Some? && |k| == |k'| == KEY_LEN && k != k' ::
      c.decrypt(k', n, c.encrypt(k, n, p).value) == None
  }

  /** Section 3 of RFC 9106: at one salt and cost, different passwords in play hash differently. */
  ghost predicate Argon2Injective(c: Suite) {
    forall pw, pw', salt, params {:trigger c.argon2id(pw, salt, params), c.argon2id(pw', salt, params)}
      | && pw in c.passwords && pw' in c.passwords && c.argon2id(pw, salt, params).Some?
        && c.argon2id(pw, salt, params) == c.argon2id(pw', salt, params)
      :: pw == pw'
  }

  /** Section 2 of RFC 5869: at one salt, different Secret Keys derive differently. */
  ghost predicate HkdfInjective(c: Suite) {
    forall sk, sk', salt {:trigger c.hkdf(Some(salt), sk, HKDF_INFO), c.hkdf(Some(salt), sk', HKDF_INFO)}
      | |sk| == |sk'| == SECRET_KEY_LEN && c.hkdf(Some(salt), sk, HKDF_INFO) == c.hkdf(Some(salt), sk', HKDF_INFO)
      :: sk == sk'
  }

  /** When both factors differ, the XOR of the two legs differs. This does not follow from the injectivity of
      the legs, so only results about two wrong factors ask for it. */
  ghost predicate LegsDoNotCross(c: Suite) {
    forall pw, pw', sk, sk', salt, params
        {:trigger c.argon2id(pw, salt, params), c.argon2id(pw', salt, params), c.hkdf(Some(salt), sk, HKDF_INFO),
         c.hkdf(Some(salt), sk', HKDF_INFO)}
      | && pw in c.passwords && pw' in c.passwords && pw != pw'
        && |sk| == |sk'| == SECRET_KEY_LEN && sk != sk'
        && c.argon2id(pw, salt, params).Some? && c.argon2id(pw', salt, params).Some?
      :: Xor(c.argon2id(pw, salt, params).value, c.hkdf(Some(salt), sk, HKDF_INFO)) !=
         Xor(c.argon2id(pw', salt, params).value, c.hkdf(Some(salt), sk', HKDF_INFO))
  }

  /** Section 6.1 of RFC 7748. */
  ghost predicate DhCommutes(c: Suite) {
    forall a, b :: c.x25519(a, c.x25519Public(b)) == c.x25519(b, c.x25519Public(a))
  }

  /** Section 5.1.7 of RFC 8032: an honest signature verifies under the signer's own key. */
  ghost predicate SignaturesVerify(c: Suite) {
    forall seed, message :: c.ed25519IsKey(c.ed25519Public(seed)) &&
      c.ed25519Verify(c.ed25519Public(seed), message, c.ed25519Sign(seed, message))
  }

  ghost predicate Lawful(c: Suite) {
    && OutputLengths(c)
    && AeadInverts(c)
    && AeadCommits(c)
    && Argon2Injective(c)
    && HkdfInjective(c)
    && LegsDoNotCross(c)
    && DhCommutes(c)
    && SignaturesVerify(c)
  }

  // ---- XOR of byte strings ----

  function Xor(a: Bytes, b: Bytes): (x: Bytes)
    ensures |x| == if |a| < |b| then |a| else |b|
  {
    seq(if |a| < |b| then |a| else |b|, i requires 0 <= i < |a| && i < |b| => XorByte(a[i], b[i]))
  }

  function XorByte(a: Byte, b: Byte): Byte {
    assert Pow2(8) == 256;
    BitXorBound(a, b, 8);
    BitXor(a, b)
  }

  lemma XorCancelsLeft(a: Bytes, b: Bytes, b': Bytes)
    requires |a| == |b| == |b'| && Xor(a, b) == Xor(a, b')
    ensures b == b'
  {
    forall i | 0 <= i < |a| ensures b[i] == b'[i] {
      assert Xor(a, b)[i] == Xor(a, b')[i];
      BitXorCancels(a[i], b[i], b'[i]);
    }
  }

  lemma XorCancelsRight(a: Bytes, a': Bytes, b: Bytes)
    requires |a| == |a'| == |b| && Xor(a, b) == Xor(a', b)
    ensures a == a'
  {
    forall i | 0 <= i < |a| ensures a[i] == a'[i] {
      assert Xor(a, b)[i] == Xor(a', b)[i];
      BitXorCommutes(a[i], b[i]);
      BitXorCommutes(a'[i], b[i]);
      BitXorCancels(b[i], a[i], a'[i]);
    }
  }

  // ---- The laws are satisfiable ----

  function ZeroBytes(n: nat): Bytes { seq(n, _ => 0) }

  /** A suite with no secrecy whatsoever that obeys every law. */
  ghost function Toy(): Suite {
    Suite(
      (pw: Bytes, salt: Bytes, params: KdfParams) =>
        Some(if |pw| == 1 then ZeroBytes(20) + pw + ZeroBytes(11) else ZeroBytes(32)),
      (salt: Option<Bytes>, ikm: Bytes, info: Bytes) => if |ikm| == 20 then ikm + ZeroBytes(12) else ZeroBytes(32),
      (k: Bytes, n: Bytes, p: Bytes) => if |p| <= 1000 then Some(k + p) else None,
      (k: Bytes, n: Bytes, ct: Bytes) => if k <= ct then Some(ct[|k|..]) else None,
      1000,
      (secret: Bytes) => ZeroBytes(32),
      (secret: Bytes, public: Bytes) => ZeroBytes(32),
      (seed: Bytes) => ZeroBytes(32),
      (public: Bytes) => true,
      (seed: Bytes, message: Bytes) => ZeroBytes(64),
      (public: Bytes, message: Bytes, signature: Bytes) => true,
      iset pw: Bytes | |pw| == 1)
  }

  lemma LawsAreSatisfiable()
    ensures Lawful(Toy())
  {
    ToyAead();
    ToyKeyDerivation();
    ToyLegsDoNotCross();
  }

  lemma ToyAead()
    ensures AeadInverts(Toy()) && AeadCommits(Toy())
  {
    var c := Toy();
    forall k: Bytes, k': Bytes, n, p | c.encrypt(k, n, p).Some? && |k| == |k'| == KEY_LEN && k != k'
      ensures c.decrypt(k', n, c.encrypt(k, n, p).value) == None
    {
      assert (k + p)[..32] == k;
    }
    forall k: Bytes, n: Bytes, p: Bytes | c.encrypt(k, n, p).Some?
      ensures c.decrypt(k, n, c.encrypt(k, n, p).value) == Some(p)
    {
      assert (k + p)[|k|..] == p;
    }
  }

  lemma ToyKeyDerivation()
    ensures Argon2Injective(Toy()) && HkdfInjective(Toy())
  {
    var c := Toy();
    forall sk: Bytes, sk': Bytes, salt
      | |sk| == |sk'| == SECRET_KEY_LEN && c.hkdf(Some(salt), sk, HKDF_INFO) == c.hkdf(Some(salt), sk', HKDF_INFO)
      ensures sk == sk'
    {
      assert sk == c.hkdf(Some(salt), sk, HKDF_INFO)[..20] == c.hkdf(Some(salt), sk', HKDF_INFO)[..20] == sk';
    }
    forall pw: Bytes, pw': Bytes, salt, params
      | |pw| == |pw'| == 1 && c.argon2id(pw, salt, params) == c.argon2id(pw', salt, params)
      ensures pw == pw'
    {
      assert pw[0] == c.argon2id(pw, salt, params).value[20] == c.argon2id(pw', salt, params).value[20] == pw'[0];
    }
  }

  lemma ToyLegsDoNotCross()
    ensures LegsDoNotCross(Toy())
  {
    var c := Toy();
    forall pw: Bytes, pw': Bytes, sk: Bytes, sk': Bytes, salt, params
      | |pw| == |pw'| == 1 && |sk| == |sk'| == SECRET_KEY_LEN && pw != pw'
      ensures Xor(c.argon2id(pw, salt, params).value, c.hkdf(Some(salt), sk, HKDF_INFO)) !=
              Xor(c.argon2id(pw', salt, params).value, c.hkdf(Some(salt), sk', HKDF_INFO))
    {
      ToyLegs(pw, sk);
      ToyLegs(pw', sk');
      assert pw == [pw[0]] && pw' == [pw'[0]];
    }
  }

  lemma ToyLegs(pw: Bytes, sk: Bytes)
    requires |pw| == 1 && |sk| == 20
    ensures Xor(ZeroBytes(20) + pw + ZeroBytes(11), sk + ZeroBytes(12))[20] == pw[0]
  {
    BitXorCommutes(pw[0], 0);
    XorWithZero(pw[0]);
  }

  lemma {:induction false} XorWithZero(a: nat)
    ensures BitXor(0, a) == a
  {
    if a > 0 {
      XorWithZero(a / 2);
    }
  }
}
