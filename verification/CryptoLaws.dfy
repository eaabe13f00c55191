/** What the key hierarchy promises: which factors open a bundle, what password changes keep, and what a
    sealed box delivers. */
module CryptoLaws {
  import opened Common
  import opened Primitives
  import opened Crypto

  /** The blob is a framed encryption of the plaintext under the key. */
  predicate IsSealed(c: Suite, key: Bytes, plaintext: Bytes, blob: Bytes) {
    |blob| >= NONCE_LEN && c.encrypt(key, blob[..NONCE_LEN], plaintext) == Some(blob[NONCE_LEN..])
  }

  /** The bundle carries this identity under this password and Secret Key. */
  predicate Carries(c: Suite, bundle: KeyBundle, password: Bytes, secretKey: Bytes, id: Identity) {
    && bundle.kdfParams.ParamsJson? && id.WellSized()
    && var kek := Kek(c, password, secretKey, bundle.kdfSalt, bundle.kdfParams.params);
    && kek.Ok?
    && IsSealed(c, kek.value, id.masterKey, bundle.masterKeyWrapped)
    && IsSealed(c, id.masterKey, id.x25519Secret, bundle.x25519PrivateWrapped)
    && IsSealed(c, id.masterKey, id.ed25519Secret, bundle.ed25519PrivateWrapped)
  }

  /** The two HKDF labels. */
  lemma LabelsSpell()
    ensures HKDF_INFO == Ascii("sylva.2skd.v1") && SEALBOX_INFO == Ascii("sylva.sealedbox.v1")
  {
  }

  // ---- Framing ----

  lemma SealFrames(c: Suite, key: Bytes, nonce: Bytes, plaintext: Bytes)
    requires AeadInverts(c) && |nonce| == NONCE_LEN
    ensures Seal(c, key, nonce, plaintext).Ok? <==> |plaintext| <= c.maxPlaintext
    ensures Seal(c, key, nonce, plaintext).Ok? ==>
      var blob := Seal(c, key, nonce, plaintext).value; IsSealed(c, key, plaintext, blob) && blob[..NONCE_LEN] == nonce
    ensures Seal(c, key, nonce, plaintext).Err? ==>
      Seal(c, key, nonce, plaintext) == Err(Malformed("plaintext too large to encrypt"))
  {
    var ct := c.encrypt(key, nonce, plaintext);
    if ct.Some? {
      assert (nonce + ct.value)[..NONCE_LEN] == nonce && (nonce + ct.value)[NONCE_LEN..] == ct.value;
    }
  }

  /** A sealed blob opens to its plaintext under its key, and under any other key of that size not at all. */
  lemma SealedOpensUnderItsKeyOnly(c: Suite, key: Bytes, plaintext: Bytes, blob: Bytes, other: Bytes)
    requires AeadInverts(c) && AeadCommits(c) && |key| == |other| == KEY_LEN
    requires IsSealed(c, key, plaintext, blob)
    ensures Open(c, other, blob) == if other == key then Ok(plaintext) else Err(Decrypt)
  {
  }

  /** Any blob at all: it opens exactly when it is long enough for a nonce and decrypts under it. */
  lemma OpenExactly(c: Suite, key: Bytes, blob: Bytes, plaintext: Bytes)
    ensures Open(c, key, blob) == Ok(plaintext) <==>
              |blob| >= NONCE_LEN && c.decrypt(key, blob[..NONCE_LEN], blob[NONCE_LEN..]) == Some(plaintext)
    ensures Open(c, key, blob).Err? ==> Open(c, key, blob) == Err(Decrypt)
  {
  }

  // ---- Which factors open a bundle ----

  predicate Decrypts(c: Suite, key: Bytes, blob: Bytes, plaintext: Bytes) {
    |blob| >= NONCE_LEN && c.decrypt(key, blob[..NONCE_LEN], blob[NONCE_LEN..]) == Some(plaintext)
  }

  /** Any bundle at all, malformed or forged: it opens to an identity exactly when its parameters parse, Argon2id takes
      them, the master-key wrap decrypts under the XOR of the legs and both private-key wraps under the master key,
      to 32 bytes each. */
  lemma UnlocksExactly(c: Suite, bundle: KeyBundle, password: Bytes, secretKey: Bytes, id: Identity)
    ensures Unlock(c, bundle, password, secretKey) == Ok(id) <==>
              && bundle.kdfParams.ParamsJson? && id.WellSized()
              && c.argon2id(password, bundle.kdfSalt, bundle.kdfParams.params).Some?
              && var passwordLeg := c.argon2id(password, bundle.kdfSalt, bundle.kdfParams.params).value;
                 var kek := Xor(passwordLeg, c.hkdf(Some(bundle.kdfSalt), secretKey, HKDF_INFO));
              && Decrypts(c, kek, bundle.masterKeyWrapped, id.masterKey)
              && Decrypts(c, id.masterKey, bundle.x25519PrivateWrapped, id.x25519Secret)
              && Decrypts(c, id.masterKey, bundle.ed25519PrivateWrapped, id.ed25519Secret)
  {
  }

  /** And the error tells what stood in the way: unreadable parameters, parameters Argon2id refuses, a wrap that
      does not decrypt, or one that decrypts to something that is no key. */
  lemma UnlockErrors(c: Suite, bundle: KeyBundle, password: Bytes, secretKey: Bytes)
    ensures var r := Unlock(c, bundle, password, secretKey);
            && (r == Err(Malformed("kdf_params")) <==> bundle.kdfParams.OtherText?)
            && (r == Err(Kdf) <==>
                  && bundle.kdfParams.ParamsJson?
                  && c.argon2id(password, bundle.kdfSalt, bundle.kdfParams.params).None?)
            && (r.Err? ==> r.error == Kdf || r.error == Decrypt || r.error == Malformed("kdf_params")
                           || r.error == Malformed("expected a 32-byte key"))
  {
    assert "kdf_params" != "expected a 32-byte key" by {
      assert |"kdf_params"| != |"expected a 32-byte key"|;
    }
  }

  /** A fresh bundle carries the drawn identity under the drawn Secret Key, each wrap under its own drawn nonce;
      bootstrap fails only when Argon2id refuses its parameters. */
  lemma BootstrapCarries(c: Suite, e: FreshEntropy, password: Bytes, params: KdfParams)
    requires AeadInverts(c)
    ensures Bootstrap(c, e, password, params).Ok? <==> c.argon2id(password, e.salt, params).Some?
    ensures Bootstrap(c, e, password, params).Ok? ==>
      var out := Bootstrap(c, e, password, params).value;
      && Carries(c, out.bundle, password, out.secretKey, out.identity)
      && out.secretKey == e.secretKey && out.identity == e.identity
      && out.bundle.kdfSalt == e.salt && out.bundle.kdfParams == ParamsJson(params)
      && out.bundle.masterKeyWrapped[..NONCE_LEN] == e.masterNonce
      && out.bundle.x25519PrivateWrapped[..NONCE_LEN] == e.xNonce
      && out.bundle.ed25519PrivateWrapped[..NONCE_LEN] == e.edNonce
      && out.bundle.x25519Public == c.x25519Public(out.identity.x25519Secret)
      && out.bundle.ed25519Public == c.ed25519Public(out.identity.ed25519Secret)
  {
    var id := e.identity;
    SealFrames(c, id.masterKey, e.xNonce, id.x25519Secret);
    SealFrames(c, id.masterKey, e.edNonce, id.ed25519Secret);
    var kek := Kek(c, password, e.secretKey, e.salt, params);
    if kek.Ok? {
      SealFrames(c, kek.value, e.masterNonce, id.masterKey);
    }
  }

  /** With factors that derive at all, a bundle opens to its identity exactly when they derive its own KEK;
      otherwise the answer is Decrypt. */
  lemma UnlockExactly(c: Suite, bundle: KeyBundle, password: Bytes, secretKey: Bytes, id: Identity, password': Bytes,
                      secretKey': Bytes)
    requires OutputLengths(c) && AeadInverts(c) && AeadCommits(c)
    requires Carries(c, bundle, password, secretKey, id)
    ensures var salt, params := bundle.kdfSalt, bundle.kdfParams.params;
            Unlock(c, bundle, password', secretKey') ==
            if Kek(c, password', secretKey', salt, params).Err? then Err(Kdf)
            else if Kek(c, password', secretKey', salt, params) == Kek(c, password, secretKey, salt, params) then Ok(id)
            else Err(Decrypt)
  {
    var salt, params := bundle.kdfSalt, bundle.kdfParams.params;
    var kek, kek' := Kek(c, password, secretKey, salt, params), Kek(c, password', secretKey', salt, params);
    if kek'.Ok? {
      SealedOpensUnderItsKeyOnly(c, kek.value, id.masterKey, bundle.masterKeyWrapped, kek'.value);
      SealedOpensUnderItsKeyOnly(c, id.masterKey, id.x25519Secret, bundle.x25519PrivateWrapped, id.masterKey);
      SealedOpensUnderItsKeyOnly(c, id.masterKey, id.ed25519Secret, bundle.ed25519PrivateWrapped, id.masterKey);
    }
  }

  /** At one Secret Key two passwords derive the same KEK exactly when Argon2id hashes them alike, and at one
      password two Secret Keys exactly when HKDF does: the other leg cancels out of the XOR. */
  lemma KekSeparatesFactors(c: Suite, password: Bytes, secretKey: Bytes, password': Bytes, secretKey': Bytes,
                            salt: Bytes, params: KdfParams)
    requires OutputLengths(c)
    requires c.argon2id(password, salt, params).Some?
    ensures Kek(c, password', secretKey, salt, params) == Kek(c, password, secretKey, salt, params) <==>
            c.argon2id(password', salt, params) == c.argon2id(password, salt, params)
    ensures Kek(c, password, secretKey', salt, params) == Kek(c, password, secretKey, salt, params) <==>
            c.hkdf(Some(salt), secretKey', HKDF_INFO) == c.hkdf(Some(salt), secretKey, HKDF_INFO)
  {
    var a, a' := c.argon2id(password, salt, params), c.argon2id(password', salt, params);
    var h, h' := c.hkdf(Some(salt), secretKey, HKDF_INFO), c.hkdf(Some(salt), secretKey', HKDF_INFO);
    if a'.Some? && Xor(a'.value, h) == Xor(a.value, h) {
      XorCancelsRight(a'.value, a.value, h);
    }
    if Xor(a.value, h') == Xor(a.value, h) {
      XorCancelsLeft(a.value, h', h);
    }
  }

  lemma WrongPasswordFails(c: Suite, bundle: KeyBundle, password: Bytes, secretKey: Bytes, id: Identity, wrong: Bytes)
    requires OutputLengths(c) && AeadInverts(c) && AeadCommits(c) && Argon2Injective(c)
    requires Carries(c, bundle, password, secretKey, id)
    requires password in c.passwords && wrong in c.passwords && wrong != password
    requires c.argon2id(wrong, bundle.kdfSalt, bundle.kdfParams.params).Some?
    ensures Unlock(c, bundle, wrong, secretKey) == Err(Decrypt)
  {
    UnlockExactly(c, bundle, password, secretKey, id, wrong, secretKey);
    KekSeparatesFactors(c, password, secretKey, wrong, secretKey, bundle.kdfSalt, bundle.kdfParams.params);
  }

  lemma WrongSecretKeyFails(c: Suite, bundle: KeyBundle, password: Bytes, secretKey: Bytes, id: Identity, wrong: Bytes)
    requires OutputLengths(c) && AeadInverts(c) && AeadCommits(c) && HkdfInjective(c)
    requires Carries(c, bundle, password, secretKey, id)
    requires |secretKey| == |wrong| == SECRET_KEY_LEN && wrong != secretKey
    ensures Unlock(c, bundle, password, wrong) == Err(Decrypt)
  {
    UnlockExactly(c, bundle, password, secretKey, id, password, wrong);
    KekSeparatesFactors(c, password, secretKey, password, wrong, bundle.kdfSalt, bundle.kdfParams.params);
  }

  /** A successful unlock has both factors right, and no other pair opens the bundle. */
  lemma UnlockFixesBothFactors(c: Suite, bundle: KeyBundle, password: Bytes, secretKey: Bytes, id: Identity,
                               password': Bytes, secretKey': Bytes)
    requires Lawful(c) && Carries(c, bundle, password, secretKey, id)
    requires password in c.passwords && password' in c.passwords
    requires |secretKey| == |secretKey'| == SECRET_KEY_LEN
    ensures Unlock(c, bundle, password', secretKey').Ok? <==> password' == password && secretKey' == secretKey
    ensures Unlock(c, bundle, password, secretKey) == Ok(id)
  {
    var salt, params := bundle.kdfSalt, bundle.kdfParams.params;
    UnlockExactly(c, bundle, password, secretKey, id, password, secretKey);
    UnlockExactly(c, bundle, password, secretKey, id, password', secretKey');
    if password' == password || secretKey' == secretKey {
      KekSeparatesFactors(c, password, secretKey, password', secretKey', salt, params);
    }
  }

  // ---- Password changes ----

  /** One local password change: check the current password by unlocking, then rewrap. */
  datatype Change = Change(newPassword: Bytes, params: KdfParams, salt: Bytes, nonce: Bytes)

  function Changed(c: Suite, bundle: KeyBundle, current: Bytes, secretKey: Bytes, change: Change)
    : Result<KeyBundle, CryptoError>
  {
    var id :- Unlock(c, bundle, current, secretKey);
    var r :- Rewrap(c, id.masterKey, secretKey, change.newPassword, change.params, change.salt, change.nonce);
    Ok(WithRewrap(bundle, r))
  }

  function LastPassword(first: Bytes, changes: seq<Change>): Bytes {
    if changes == [] then first else changes[|changes| - 1].newPassword
  }

  function AllChanged(c: Suite, bundle: KeyBundle, first: Bytes, secretKey: Bytes, changes: seq<Change>)
    : Result<KeyBundle, CryptoError>
  {
    if changes == [] then Ok(bundle)
    else
      var n := |changes| - 1;
      var before :- AllChanged(c, bundle, first, secretKey, changes[..n]);
      Changed(c, before, LastPassword(first, changes[..n]), secretKey, changes[n])
  }

  lemma RewrapCarries(c: Suite, bundle: KeyBundle, password: Bytes, secretKey: Bytes, id: Identity, change: Change)
    requires AeadInverts(c) && Carries(c, bundle, password, secretKey, id) && |change.nonce| == NONCE_LEN
    ensures var r := Rewrap(c, id.masterKey, secretKey, change.newPassword, change.params, change.salt, change.nonce);
            && (r.Ok? <==> c.argon2id(change.newPassword, change.salt, change.params).Some?)
            && (r.Ok? ==>
                  && Carries(c, WithRewrap(bundle, r.value), change.newPassword, secretKey, id)
                  && r.value.kdfSalt == change.salt && r.value.kdfParams == ParamsJson(change.params)
                  && r.value.masterKeyWrapped[..NONCE_LEN] == change.nonce)
  {
    var kek := Kek(c, change.newPassword, secretKey, change.salt, change.params);
    if kek.Ok? {
      SealFrames(c, kek.value, change.nonce, id.masterKey);
    }
  }

  /** After any list of password changes the bundle carries the original identity under the last password,
      with the private-key wraps and public keys untouched; the list goes through exactly when Argon2id
      accepts every new salt and cost. */
  lemma {:induction false} ChangesKeepIdentity(c: Suite, bundle: KeyBundle, first: Bytes, secretKey: Bytes,
                                               id: Identity, changes: seq<Change>)
    requires OutputLengths(c) && AeadInverts(c) && AeadCommits(c)
    requires Carries(c, bundle, first, secretKey, id)
    requires forall ch | ch in changes :: |ch.nonce| == NONCE_LEN
    ensures AllChanged(c, bundle, first, secretKey, changes).Ok? <==>
            forall ch | ch in changes :: c.argon2id(ch.newPassword, ch.salt, ch.params).Some?
    ensures AllChanged(c, bundle, first, secretKey, changes).Ok? ==>
      var last := AllChanged(c, bundle, first, secretKey, changes).value;
      && last.kdfParams.ParamsJson?
      && Carries(c, last, LastPassword(first, changes), secretKey, id)
      && last == bundle.(masterKeyWrapped := last.masterKeyWrapped, kdfSalt := last.kdfSalt,
                         kdfParams := last.kdfParams)
  {
    if changes != [] {
      var n := |changes| - 1;
      var change := changes[n];
      var current := LastPassword(first, changes[..n]);
      ChangesKeepIdentity(c, bundle, first, secretKey, id, changes[..n]);
      assert forall ch :: ch in changes <==> ch in changes[..n] || ch == change by {
        assert changes == changes[..n] + [change];
      }
      var before := AllChanged(c, bundle, first, secretKey, changes[..n]);
      if before.Ok? {
        UnlockExactly(c, before.value, current, secretKey, id, current, secretKey);
        RewrapCarries(c, before.value, current, secretKey, id, change);
      }
    }
  }

  /** Of all the passwords in play only the latest one opens the bundle, and it opens to the original identity;
      any other gives Decrypt, or Kdf where Argon2id refuses it. */
  lemma OnlyLatestPasswordOpens(c: Suite, bundle: KeyBundle, first: Bytes, secretKey: Bytes, id: Identity,
                                changes: seq<Change>, password: Bytes)
    requires OutputLengths(c) && AeadInverts(c) && AeadCommits(c) && Argon2Injective(c)
    requires Carries(c, bundle, first, secretKey, id)
    requires forall ch | ch in changes :: |ch.nonce| == NONCE_LEN && ch.newPassword in c.passwords
    requires first in c.passwords && password in c.passwords
    requires AllChanged(c, bundle, first, secretKey, changes).Ok?
    ensures var last := AllChanged(c, bundle, first, secretKey, changes).value;
            Unlock(c, last, password, secretKey) ==
            if password == LastPassword(first, changes) then Ok(id)
            else if c.argon2id(password, last.kdfSalt, last.kdfParams.params).None? then Err(Kdf)
            else Err(Decrypt)
  {
    hide Carries, Unlock, AeadInverts, AeadCommits, Argon2Injective, AllChanged;
    ChangesKeepIdentity(c, bundle, first, secretKey, id, changes);
    var last, current := AllChanged(c, bundle, first, secretKey, changes).value, LastPassword(first, changes);
    assert changes != [] ==> changes[|changes| - 1] in changes;
    UnlockExactly(c, last, current, secretKey, id, password, secretKey);
    if password != current && c.argon2id(password, last.kdfSalt, last.kdfParams.params).Some? {
      WrongPasswordFails(c, last, current, secretKey, id, password);
    }
  }

  // ---- The sealed box ----

  /** The key's HKDF info names the ephemeral and the recipient key unambiguously: both have fixed width. */
  lemma SealboxInfoInjective(e: Bytes, r: Bytes, e': Bytes, r': Bytes)
    requires |e| == |e'| == KEY_LEN && SealboxInfo(e, r) == SealboxInfo(e', r')
    ensures e == e' && r == r'
  {
    var n := |SEALBOX_INFO|;
    assert e == SealboxInfo(e, r)[n..n + KEY_LEN] == SealboxInfo(e', r')[n..n + KEY_LEN] == e';
    assert r == SealboxInfo(e, r)[n + KEY_LEN..] == SealboxInfo(e', r')[n + KEY_LEN..] == r';
  }

  /** A box sealed to one recipient opens for a holder of any secret exactly when that secret leads to the
      same symmetric key; then it delivers the plaintext, otherwise Decrypt. */
  lemma SealedBoxOpensExactly(c: Suite, ephemeral: Bytes, nonce: Bytes, recipient: Bytes, plaintext: Bytes,
                              secret: Bytes)
    requires OutputLengths(c) && AeadInverts(c) && AeadCommits(c) && |nonce| == NONCE_LEN
             && |plaintext| <= c.maxPlaintext
    ensures var box := SealTo(c, ephemeral, nonce, recipient, plaintext);
            var e := c.x25519Public(ephemeral);
            && box.Ok? && box.value[..KEY_LEN] == e && |box.value| >= KEY_LEN + NONCE_LEN
            && box.value[KEY_LEN..KEY_LEN + NONCE_LEN] == nonce
            && OpenSealed(c, secret, box.value) ==
               if c.hkdf(None, c.x25519(secret, e), SEALBOX_INFO + e + c.x25519Public(secret)) ==
                  c.hkdf(None, c.x25519(ephemeral, recipient), SEALBOX_INFO + e + recipient)
               then Ok(plaintext) else Err(Decrypt)
  {
    var e := c.x25519Public(ephemeral);
    var key := SealboxKey(c, c.x25519(ephemeral, recipient), e, recipient);
    var key' := SealboxKey(c, c.x25519(secret, e), e, c.x25519Public(secret));
    SealFrames(c, key, nonce, plaintext);
    var sealed := Seal(c, key, nonce, plaintext).value;
    assert (e + sealed)[..KEY_LEN] == e && (e + sealed)[KEY_LEN..] == sealed;
    SealedOpensUnderItsKeyOnly(c, key, plaintext, sealed, key');
  }

  /** A blob too short for an ephemeral key and a nonce never opens. */
  lemma ShortBoxFails(c: Suite, secret: Bytes, blob: Bytes)
    requires |blob| < KEY_LEN + NONCE_LEN
    ensures OpenSealed(c, secret, blob) == Err(Decrypt)
  {
  }

  lemma SealedBoxRoundTrip(c: Suite, ephemeral: Bytes, nonce: Bytes, secret: Bytes, plaintext: Bytes)
    requires OutputLengths(c) && AeadInverts(c) && AeadCommits(c) && DhCommutes(c)
    requires |nonce| == NONCE_LEN && |plaintext| <= c.maxPlaintext
    ensures var box := SealTo(c, ephemeral, nonce, c.x25519Public(secret), plaintext);
            box.Ok? && OpenSealed(c, secret, box.value) == Ok(plaintext)
  {
    SealedBoxOpensExactly(c, ephemeral, nonce, c.x25519Public(secret), plaintext, secret);
  }

  /** The machine plane: a group secret sealed to an admin opens telemetry sealed to the group. */
  lemma GroupSecretChain(c: Suite, admin: Bytes, group: Bytes, e: Bytes, n: Bytes, e': Bytes, n': Bytes,
                         telemetry: Bytes)
    requires OutputLengths(c) && AeadInverts(c) && AeadCommits(c) && DhCommutes(c)
    requires |n| == |n'| == NONCE_LEN && |group| == KEY_LEN && |telemetry| <= c.maxPlaintext
    ensures var wrapped := SealTo(c, e, n, c.x25519Public(admin), group);
            var box := SealTo(c, e', n', c.x25519Public(group), telemetry);
            && wrapped.Ok? && box.Ok? && OpenSealed(c, admin, wrapped.value).Ok?
            && OpenSealed(c, OpenSealed(c, admin, wrapped.value).value, box.value) == Ok(telemetry)
  {
    SealedBoxRoundTrip(c, e, n, admin, group);
    SealedBoxRoundTrip(c, e', n', group, telemetry);
  }
}
