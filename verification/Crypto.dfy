/** The client's end-to-end crypto (src/crypto/mod.rs): AEAD framing, the two-secret key derivation, the key
    hierarchy and the sealed box. Fresh randomness is passed in. */
module Crypto {
  import opened Common
  import opened Primitives
  import opened Words

  datatype CryptoError = Kdf | Decrypt | Malformed(what: string) | SecretKeyInvalid

  /** The opaque kdf_params text: JSON of parameters, or text that does not parse as such. */
  datatype ParamsText = ParamsJson(params: KdfParams) | OtherText(text: string)

  function ParamsFromJson(text: ParamsText): Result<KdfParams, CryptoError> {
    match text
    case ParamsJson(params) => Ok(params)
    case OtherText(_) => Err(Malformed("kdf_params"))
  }

  /** What the server stores: ciphertext and public keys only. */
  datatype KeyBundle = KeyBundle(
    x25519Public: Bytes,
    ed25519Public: Bytes,
    x25519PrivateWrapped: Bytes,
    ed25519PrivateWrapped: Bytes,
    masterKeyWrapped: Bytes,
    kdfSalt: Bytes,
    kdfParams: ParamsText)

  datatype Identity = Identity(masterKey: Bytes, x25519Secret: Bytes, ed25519Secret: Bytes) {
    predicate WellSized() {
      |masterKey| == |x25519Secret| == |ed25519Secret| == KEY_LEN
    }
  }

  datatype BootstrapOutput = BootstrapOutput(bundle: KeyBundle, secretKey: Bytes, identity: Identity)

  datatype RewrappedMaster = RewrappedMaster(masterKeyWrapped: Bytes, kdfSalt: Bytes, kdfParams: ParamsText)

  /** The random draws of one bootstrap. */
  datatype Entropy = Entropy(
    secretKey: Bytes, identity: Identity, salt: Bytes, masterNonce: Bytes, xNonce: Bytes, edNonce: Bytes) {
    predicate WellSized() {
      && |secretKey| == SECRET_KEY_LEN && identity.WellSized() && |salt| == SALT_LEN
      && |masterNonce| == |xNonce| == |edNonce| == NONCE_LEN
    }
  }

  /** Draws of the sizes the source draws. */
  type FreshEntropy = e: Entropy | e.WellSized()
    witness Entropy(ZeroBytes(20), Identity(ZeroBytes(32), ZeroBytes(32), ZeroBytes(32)), ZeroBytes(16), ZeroBytes(24),
                    ZeroBytes(24), ZeroBytes(24))

  // ---- Framing ----

  /** nonce(24) || ciphertext and tag. */
  function Seal(c: Suite, key: Bytes, nonce: Bytes, plaintext: Bytes): Result<Bytes, CryptoError> {
    match c.encrypt(key, nonce, plaintext)
    case None => Err(Malformed("plaintext too large to encrypt"))
    case Some(ciphertext) => Ok(nonce + ciphertext)
  }

  function Open(c: Suite, key: Bytes, blob: Bytes): Result<Bytes, CryptoError> {
    if |blob| < NONCE_LEN then Err(Decrypt)
    else match c.decrypt(key, blob[..NONCE_LEN], blob[NONCE_LEN..])
      case None => Err(Decrypt)
      case Some(plaintext) => Ok(plaintext)
  }

  /** A blob that must decrypt to exactly one key. */
  function OpenArray(c: Suite, key: Bytes, blob: Bytes): (r: Result<Bytes, CryptoError>)
    ensures r.Ok? ==> |r.value| == KEY_LEN
  {
    var plaintext :- Open(c, key, blob);
    if |plaintext| == KEY_LEN then Ok(plaintext) else Err(Malformed("expected a 32-byte key"))
  }

  // ---- The two-secret key derivation ----

  function Kek(c: Suite, password: Bytes, secretKey: Bytes, salt: Bytes, params: KdfParams)
    : Result<Bytes, CryptoError>
  {
    match c.argon2id(password, salt, params)
    case None => Err(Kdf)
    case Some(passwordLeg) => Ok(Xor(passwordLeg, c.hkdf(Some(salt), secretKey, HKDF_INFO)))
  }

  /** Every bit of a KEK says whether the two legs differ there. */
  lemma KekBits(c: Suite, password: Bytes, secretKey: Bytes, salt: Bytes, params: KdfParams, j: nat, i: nat)
    requires OutputLengths(c) && c.argon2id(password, salt, params).Some? && j < KEY_LEN && i < 8
    ensures var kek := Kek(c, password, secretKey, salt, params);
            && kek.Ok? && |kek.value| == KEY_LEN
            && Bits(kek.value[j], 8)[i] == (Bits(c.argon2id(password, salt, params).value[j], 8)[i] !=
                                            Bits(c.hkdf(Some(salt), secretKey, HKDF_INFO)[j], 8)[i])
  {
    BitsOfXor(c.argon2id(password, salt, params).value[j], c.hkdf(Some(salt), secretKey, HKDF_INFO)[j], 8, i);
  }

  /** Argon2id(password, salt) XOR HKDF-SHA256(secret key, salt), byte by byte. */
  method DeriveKek(c: Suite, password: Bytes, secretKey: Bytes, salt: Bytes, params: KdfParams)
    returns (r: Result<Bytes, CryptoError>)
    requires OutputLengths(c)
    ensures r == Kek(c, password, secretKey, salt, params)
    ensures r.Ok? <==> c.argon2id(password, salt, params).Some?
    ensures r.Ok? ==>
              && |r.value| == KEY_LEN
              && forall j, i | 0 <= j < KEY_LEN && 0 <= i < 8 ::
                   Bits(r.value[j], 8)[i] == (Bits(c.argon2id(password, salt, params).value[j], 8)[i] !=
                                              Bits(c.hkdf(Some(salt), secretKey, HKDF_INFO)[j], 8)[i])
  {
    var argon := c.argon2id(password, salt, params);
    if argon.None? {
      return Err(Kdf);
    }
    var passwordLeg, secretKeyLeg := argon.value, c.hkdf(Some(salt), secretKey, HKDF_INFO);
    var kek := new Byte[KEY_LEN](_ => 0);
    for i := 0 to KEY_LEN
      invariant forall j | 0 <= j < i :: kek[j] == Xor(passwordLeg, secretKeyLeg)[j]
    {
      kek[i] := XorByte(passwordLeg[i], secretKeyLeg[i]);
    }
    assert kek[..] == Xor(passwordLeg, secretKeyLeg);
    r := Ok(kek[..]);
    forall j, i | 0 <= j < KEY_LEN && 0 <= i < 8
      ensures Bits(r.value[j], 8)[i] == (Bits(passwordLeg[j], 8)[i] != Bits(secretKeyLeg[j], 8)[i])
    {
      KekBits(c, password, secretKey, salt, params, j, i);
    }
  }

  // ---- The key hierarchy ----

  /** Creates an owner's key material: private keys under the master key, the master key under the KEK. */
  function Bootstrap(c: Suite, e: FreshEntropy, password: Bytes, params: KdfParams)
    : Result<BootstrapOutput, CryptoError>
  {
    var id := e.identity;
    var kek :- Kek(c, password, e.secretKey, e.salt, params);
    var masterKeyWrapped :- Seal(c, kek, e.masterNonce, id.masterKey);
    var xWrapped :- Seal(c, id.masterKey, e.xNonce, id.x25519Secret);
    var edWrapped :- Seal(c, id.masterKey, e.edNonce, id.ed25519Secret);
    var bundle := KeyBundle(c.x25519Public(id.x25519Secret), c.ed25519Public(id.ed25519Secret),
                            xWrapped, edWrapped, masterKeyWrapped, e.salt, ParamsJson(params));
    Ok(BootstrapOutput(bundle, e.secretKey, id))
  }

  function Unlock(c: Suite, bundle: KeyBundle, password: Bytes, secretKey: Bytes): (r: Result<Identity, CryptoError>)
    ensures r.Ok? ==> r.value.WellSized()
  {
    var params :- ParamsFromJson(bundle.kdfParams);
    var kek :- Kek(c, password, secretKey, bundle.kdfSalt, params);
    var masterKey :- OpenArray(c, kek, bundle.masterKeyWrapped);
    var x :- OpenArray(c, masterKey, bundle.x25519PrivateWrapped);
    var ed :- OpenArray(c, masterKey, bundle.ed25519PrivateWrapped);
    Ok(Identity(masterKey, x, ed))
  }

  /** Wraps the same master key under a new password, with a fresh salt and nonce. */
  function Rewrap(c: Suite, masterKey: Bytes, secretKey: Bytes, newPassword: Bytes, params: KdfParams, salt: Bytes,
                  nonce: Bytes)
    : Result<RewrappedMaster, CryptoError>
  {
    var kek :- Kek(c, newPassword, secretKey, salt, params);
    var wrapped :- Seal(c, kek, nonce, masterKey);
    Ok(RewrappedMaster(wrapped, salt, ParamsJson(params)))
  }

  /** The bundle after a password change: only the master-key fields are swapped. */
  function WithRewrap(bundle: KeyBundle, r: RewrappedMaster): KeyBundle {
    bundle.(masterKeyWrapped := r.masterKeyWrapped, kdfSalt := r.kdfSalt, kdfParams := r.kdfParams)
  }

  // ---- The sealed box ----

  function SealboxInfo(ephemeralPublic: Bytes, recipientPublic: Bytes): Bytes {
    SEALBOX_INFO + ephemeralPublic + recipientPublic
  }

  function SealboxKey(c: Suite, shared: Bytes, ephemeralPublic: Bytes, recipientPublic: Bytes): Bytes {
    c.hkdf(None, shared, SealboxInfo(ephemeralPublic, recipientPublic))
  }

  /** ephemeral public key(32) || sealed blob. */
  function SealTo(c: Suite, ephemeral: Bytes, nonce: Bytes, recipientPublic: Bytes, plaintext: Bytes)
    : Result<Bytes, CryptoError>
  {
    var ephemeralPublic := c.x25519Public(ephemeral);
    var key := SealboxKey(c, c.x25519(ephemeral, recipientPublic), ephemeralPublic, recipientPublic);
    var sealed :- Seal(c, key, nonce, plaintext);
    Ok(ephemeralPublic + sealed)
  }

  function OpenSealed(c: Suite, recipientSecret: Bytes, blob: Bytes): Result<Bytes, CryptoError> {
    if |blob| < KEY_LEN then Err(Decrypt)
    else
      var ephemeralPublic, sealed := blob[..KEY_LEN], blob[KEY_LEN..];
      var key := SealboxKey(c, c.x25519(recipientSecret, ephemeralPublic), ephemeralPublic,
                            c.x25519Public(recipientSecret));
      Open(c, key, sealed)
  }
}
