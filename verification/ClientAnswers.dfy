/** What each client call answers, sends and leaves behind, said of its inputs alone: of what was typed, what the
    vault holds, what the network and the server answer, which store operations are refused. */
module ClientAnswers {
  import opened Common
  import opened Primitives
  import opened Crypto
  import opened CryptoLaws
  import opened Discovery
  import opened DiscoveryLaws
  import opened Endpoint
  import opened Storage
  import opened Transport
  import opened Flows
  import opened ClientSpec
  import opened ClientRuns
  import opened SecretKeyCodec
  import opened SecretKeyLaws

  predicate IsConnected(s: State) { s.inner.channel.Some? && s.inner.verified.Some? }

  /** None of n store operations is refused, from one on. */
  predicate NoneRefused(faults: Faults, from: nat, n: nat) { forall i | from <= i < from + n :: !faults(i) }

  // ---- connect and restore ----

  /** connect: who answers at the given place decides, together with the pin and the dial of the advertised port. */
  lemma ConnectDecides(c: Suite, s: State, host: string, port: Port, net: Network, nonce: Bytes, faults: Faults)
    requires Consistent(s)
    ensures var (s', r) := Connect(c, s, host, port, net, nonce, faults);
            var proven := Proven(c, net, nonce, host, port);
            var known := Pin(s).None? || (proven.Some? && Pin(s) == Some(proven.value.identityPublic));
            var dialled := proven.Some? && net.dial(host, proven.value.grpcPort).Some?;
            && (r == Err(StorageFailed) <==> faults(0))
            && (r == Err(IdentityMismatch) <==> !faults(0) && proven.Some? && !known)
            && (r == Err(ConnectFailed) <==> !faults(0) && (proven.None? || (known && !dialled)))
            && (r.Ok? <==> !faults(0) && proven.Some? && known && dialled)
            && (r.Err? ==> s' == s)
            && (r.Ok? ==>
                  var v := proven.value;
                  && r.value.serverName == v.name && r.value.grpcPort == v.grpcPort
                  && (r.value.trust == FirstTime <==> Pin(s).None?)
                  && HexArray(r.value.identityFingerprint, 32) == Some(v.identityPublic)
                  && (forall b | b in r.value.identityFingerprint :: 48 <= b <= 57 || 97 <= b <= 102)
                  && s' == s.(inner := s.inner.(endpoints := [FormatEndpoint(host, port)], verified := Some(v),
                                                channel := net.dial(host, v.grpcPort))))
  {
    hide Hex, HexArray, VerifyDiscovery, FormatEndpoint;
    var proven := Proven(c, net, nonce, host, port);
    if proven.Some? {
      IdentityIs32Bytes(c, net.fetch(host, port).value, nonce);
      HexRoundTrip(proven.value.identityPublic);
      HexIsLowerCase(proven.value.identityPublic);
    }
  }

  lemma IdentityIs32Bytes(c: Suite, resp: DiscoveryResponse, nonce: Bytes)
    ensures VerifyDiscovery(c, resp, nonce).Ok? ==> |VerifyDiscovery(c, resp, nonce).value.identityPublic| == 32
  {
  }

  /** restore: it resumes exactly when a profile and a token are cached, the pinned identity answers at the cached
      place and its port can be dialled; the session is bound to that very channel. Nothing
      else fails it but the store. */
  lemma RestoreDecides(c: Suite, s: State, profile: ServerProfile, host: string, port: Port, net: Network, nonce: Bytes,
                       faults: Faults)
    requires Consistent(s) && (Profile in s.vault ==> s.vault[Profile] == Json(profile))
    requires profile.endpoints != [] && profile.endpoints[0] == FormatEndpoint(host, port)
    ensures var (s', r) := Restore(c, s, net, nonce, faults);
            var proven := Proven(c, net, nonce, host, port);
            var reached := && proven.Some? && proven.value.identityPublic == profile.identityPublic
                           && net.dial(host, proven.value.grpcPort).Some?;
            var cached := Profile in s.vault && SessionToken in s.vault;
            && (r == Err(StorageFailed) <==> faults(0) || (Profile in s.vault && faults(1)))
            && (r == Ok(Some(profile.userId)) <==> !faults(0) && !faults(1) && cached && reached)
            && (r == Err(StorageFailed) || r == Ok(None) || r == Ok(Some(profile.userId)))
            && (r != Ok(Some(profile.userId)) ==> s' == s)
            && (r == Ok(Some(profile.userId)) ==>
                  var channel := net.dial(host, proven.value.grpcPort);
                  var session := AccountSession(channel.value, s.vault[SessionToken].text);
                  s' == s.(inner := s.inner.(endpoints := profile.endpoints, session := Some(session),
                                             verified := proven, channel := channel)))
  {
    hide VerifyDiscovery, FormatEndpoint, SplitEndpoint;
    EndpointRoundTrip(host, port);
  }

  // ---- create_owner ----

  /** create_owner founds the account it was asked for: the server gets this password and a bundle that opens under it
      and the drawn Secret Key, the user a text that parses back to that key, the device the server's session. */
  lemma CreateOwnerDecides(c: Suite, s: State, e: FreshEntropy, deviceSecret: Bytes, password: Bytes,
                           answer: Result<Session, RpcError>, faults: Faults)
    requires Lawful(c)
    ensures var (s', r) := CreateOwner(c, s, e, deviceSecret, password, answer, faults);
            var ready := IsConnected(s) && c.argon2id(password, e.salt, KdfParams(65536, 3, 4)).Some?;
            && (r == Err(NotConnected) <==> !IsConnected(s))
            && (r == Err(CryptoRefused) <==> IsConnected(s) && !ready)
            && (r == Err(ServerFailed) <==> ready && answer.Err?)
            && (r == Err(StorageFailed) <==> ready && answer.Ok? && !NoneRefused(faults, 0, 5))
            && (r.Ok? <==> ready && answer.Ok? && NoneRefused(faults, 0, 5))
            && (r.Ok? ==>
                  && r.value.userId == answer.value.userId && Parse(r.value.secretKey) == Ok(e.secretKey)
                  && s'.inner == s.inner.(session := Some(AccountSession(s.inner.channel.value, answer.value.token)),
                                          identity := Some(e.identity), secretKey := Some(e.secretKey))
                  && s'.vault == s.vault[MasterKey := Raw(e.identity.masterKey)][SecretKey := Raw(e.secretKey)]
                       [SessionToken := Text(answer.value.token)][DeviceSecret := Raw(deviceSecret)]
                       [Profile := Json(ServerProfile(s.inner.endpoints, s.inner.verified.value.identityPublic,
                                                      answer.value.userId))])
  {
    hide Lawful, Bootstrap, PersistWrites, WriteAll, NoneRefused;
    OwnerEnrolls(c, e, password, answer);
    var enrolled := EnrollNewOwner(c, e, password, DEFAULT_PARAMS, answer);
    if IsConnected(s) && enrolled.Ok? {
      var d := ToCache(s.inner.verified.value.identityPublic, enrolled.value.userId, enrolled.value.token,
                       enrolled.value.identity.masterKey, enrolled.value.secretKey, Some(deviceSecret),
                       s.inner.endpoints);
      var k := PersistOutcome(s.vault, d, faults, 0);
      NoneRefusedIs(d, faults, 0);
      DisplayRoundTrip(enrolled.value.secretKey);
    }
  }

  lemma NoneRefusedIs(d: ToCache, faults: Faults, at: nat)
    ensures NoneRefused(faults, at, if d.deviceSecret.Some? then 5 else 4) <==>
            forall i | at <= i < at + |PersistWrites(d)| :: !faults(i)
  {
  }

  lemma OwnerEnrolls(c: Suite, e: FreshEntropy, password: Bytes, answer: Result<Session, RpcError>)
    requires Lawful(c)
    ensures var r := EnrollNewOwner(c, e, password, DEFAULT_PARAMS, answer);
            && (r.Err? && r.error.CryptoFailed? <==> c.argon2id(password, e.salt, DEFAULT_PARAMS).None?)
            && (r == Err(TransportFailed) <==> c.argon2id(password, e.salt, DEFAULT_PARAMS).Some? && answer.Err?)
            && (r.Err? ==> r.error.CryptoFailed? || r.error == TransportFailed)
            && (r.Ok? ==> r.value == EnrolledOwner(answer.value.token, answer.value.userId, e.secretKey, e.identity))
  {
    hide Bootstrap, Carries;
    BootstrapCarries(c, e, password, DEFAULT_PARAMS);
  }

  /** What create_owner sends, exactly when it is connected and Argon2id takes the password. */
  lemma CreateOwnerSends(c: Suite, s: State, e: FreshEntropy, deviceSecret: Bytes, password: Bytes)
    requires Lawful(c)
    ensures var sent := OwnerUploadOf(c, s, e, deviceSecret, password);
            && (sent.Some? <==> IsConnected(s) && c.argon2id(password, e.salt, KdfParams(65536, 3, 4)).Some?)
            && (sent.Some? ==>
                  var m := sent.value.material;
                  && sent.value.password == password && sent.value.devicePublic == c.x25519Public(deviceSecret)
                  && m.x25519Public == c.x25519Public(e.identity.x25519Secret)
                  && m.ed25519Public == c.ed25519Public(e.identity.ed25519Secret)
                  && m.kdfSalt == e.salt && m.kdfParams == ParamsJson(KdfParams(65536, 3, 4))
                  && IsSealed(c, e.identity.masterKey, e.identity.x25519Secret, m.x25519PrivateWrapped)
                  && IsSealed(c, e.identity.masterKey, e.identity.ed25519Secret, m.ed25519PrivateWrapped)
                  && Unlock(c, KeyMaterialToBundle(m), password, e.secretKey) == Ok(e.identity))
  {
    BootstrapCarries(c, e, password, DEFAULT_PARAMS);
    hide Lawful, Bootstrap, Unlock, IsSealed, Kek;
    var boot := Bootstrap(c, e, password, DEFAULT_PARAMS);
    if boot.Ok? {
      LawfulParts(c);
      BridgeRoundTrip(boot.value.bundle, BundleToKeyMaterial(boot.value.bundle));
      UnlockExactly(c, boot.value.bundle, password, e.secretKey, e.identity, password, e.secretKey);
    }
  }

  lemma LawfulParts(c: Suite)
    requires Lawful(c)
    ensures OutputLengths(c) && AeadInverts(c) && AeadCommits(c)
  {
    hide OutputLengths, AeadInverts, AeadCommits;
  }

  // ---- sign_in ----

  /** The key a sign-in goes by: the one the typed text parses to, else the cached one. */
  predicate KeyIs(s: State, typed: Option<string>, faults: Faults, key: Bytes) {
    match typed
    case Some(text) => Parse(text) == Ok(key)
    case None => !faults(0) && SecretKey in s.vault && s.vault[SecretKey] == Raw(key) && |key| == SECRET_KEY_LEN
  }

  /** Without such a key: a typed text that does not parse is refused as a wrong key; with nothing typed, an empty
      cache asks for the key, and a refused or unreadable one is a store failure. */
  lemma SignInWithoutKey(c: Suite, s: State, password: Bytes, typed: Option<string>,
                         login: Result<LoginOutcome, RpcError>, material: Result<KeyMaterial, RpcError>, faults: Faults)
    requires forall key :: !KeyIs(s, typed, faults, key)
    ensures SignIn(c, s, password, typed, login, material, faults) ==
            (s, Err(if typed.Some? then CryptoRefused
                    else if !faults(0) && SecretKey !in s.vault then SecretKeyRequired
                    else StorageFailed))
  {
    if typed.Some? {
      var parsed := Parse(typed.value);
      assert parsed.Ok? ==> KeyIs(s, typed, faults, parsed.value);
    } else if SecretKey in s.vault && s.vault[SecretKey].Raw? {
      assert !KeyIs(s, typed, faults, s.vault[SecretKey].bytes);
    }
  }

  /** With it, but without a connection, a session or the bundle. */
  lemma SignInNotGranted(c: Suite, s: State, password: Bytes, typed: Option<string>,
                         login: Result<LoginOutcome, RpcError>, material: Result<KeyMaterial, RpcError>, faults: Faults,
                         key: Bytes)
    requires KeyIs(s, typed, faults, key)
    requires !IsConnected(s) || login.Err? || !login.value.SessionGranted? || material.Err?
    ensures SignIn(c, s, password, typed, login, material, faults) ==
            (s, if !IsConnected(s) then Err(NotConnected)
                else if login == Ok(MfaDemanded) then Ok(MfaNeeded)
                else Err(ServerFailed))
  {
    hide Parse;
  }

  /** What a successful sign-in leaves: this identity, key and session, in memory and in the vault. */
  predicate SignedInAs(s: State, s': State, id: Identity, key: Bytes, session: Session) {
    && IsConnected(s)
    && s'.inner == s.inner.(session := Some(AccountSession(s.inner.channel.value, session.token)),
                            identity := Some(id), secretKey := Some(key))
    && s'.vault == s.vault[MasterKey := Raw(id.masterKey)][SecretKey := Raw(key)][SessionToken := Text(session.token)]
         [Profile := Json(ServerProfile(s.inner.endpoints, s.inner.verified.value.identityPublic, session.userId))]
  }

  /** With it and with the server's grant: the local unlock under the given password and that key decides. */
  lemma SignInDecides(c: Suite, s: State, password: Bytes, typed: Option<string>, session: Session,
                      material: KeyMaterial, faults: Faults, key: Bytes)
    requires KeyIs(s, typed, faults, key) && IsConnected(s)
    ensures var (s', r) := SignIn(c, s, password, typed, Ok(SessionGranted(session)), Ok(material), faults);
            match Unlock(c, KeyMaterialToBundle(material), password, key)
            case Err(_) => (s', r) == (s, Err(CryptoRefused))
            case Ok(id) =>
              if NoneRefused(faults, 1, 4) then r == Ok(Success(session.userId)) && SignedInAs(s, s', id, key, session)
              else r == Err(StorageFailed) && s'.inner == s.inner
  {
    hide Parse, Unlock, PersistWrites, WriteAll, NoneRefused;
    var loggedIn := Login(c, Ok(SessionGranted(session)), Ok(material), password, key);
    if loggedIn.Ok? {
      var d := ToCache(s.inner.verified.value.identityPublic, loggedIn.value.userId, loggedIn.value.token,
                       loggedIn.value.identity.masterKey, key, None, s.inner.endpoints);
      var k := PersistOutcome(s.vault, d, faults, 1);
      NoneRefusedIs(d, faults, 1);
    }
  }

  // ---- The calls on a session ----

  /** enroll_this_device stores the secret it was given, under its own entry, only with a session and the server's
      consent. */
  lemma EnrollDecides(s: State, deviceSecret: Bytes, answer: Result<(), RpcError>, faults: Faults)
    ensures var (s', r) := EnrollDevice(s, deviceSecret, answer, faults);
            && (r == Err(NotSignedIn) <==> s.inner.session.None?)
            && (r == Err(ServerFailed) <==> s.inner.session.Some? && answer.Err?)
            && (r == Err(StorageFailed) <==> s.inner.session.Some? && answer.Ok? && faults(0))
            && (r.Err? ==> s' == s && (r.error == NotSignedIn || r.error == ServerFailed || r.error == StorageFailed))
            && (r.Ok? ==> s' == s.(vault := s'.vault) && s'.vault == s.vault[DeviceSecret := Raw(deviceSecret)])
  {
  }

  /** What change_password answers: the store, the cached key, the session, the server's first answer, the local check
      and the server's verdict are asked in this order. */
  lemma ChangePasswordDecides(c: Suite, s: State, current: Bytes, newPassword: Bytes,
                              material: Result<KeyMaterial, RpcError>, salt: Bytes, nonce: Bytes,
                              answer: Result<(), RpcError>, faults: Faults)
    requires Lawful(c) && WellFormed(s.vault) && |nonce| == NONCE_LEN
    ensures var r := ChangePassword(c, s, current, newPassword, material, salt, nonce, answer, faults);
            r == if faults(0) then Err(StorageFailed)
                 else if SecretKey !in s.vault then Err(SecretKeyRequired)
                 else if s.inner.session.None? then Err(NotSignedIn)
                 else if material.Err? then Err(ServerFailed)
                 else if Unlock(c, KeyMaterialToBundle(material.value), current, s.vault[SecretKey].bytes).Err?
                 then Err(CryptoRefused)
                 else if c.argon2id(newPassword, salt, KdfParams(65536, 3, 4)).None? then Err(CryptoRefused)
                 else if answer == Err(Unauthenticated) then Err(CryptoRefused)
                 else if answer.Err? then Err(ServerFailed)
                 else Ok(())
  {
    hide Lawful, Unlock, Seal;
    if material.Ok? && SecretKey in s.vault {
      var key := s.vault[SecretKey].bytes;
      var unlocked := Unlock(c, KeyMaterialToBundle(material.value), current, key);
      if unlocked.Ok? {
        KeyFits(c);
        LawfulParts(c);
        var kek := Kek(c, newPassword, key, salt, DEFAULT_PARAMS);
        if kek.Ok? {
          SealFrames(c, kek.value, nonce, unlocked.value.masterKey);
        }
      }
    }
  }

  lemma KeyFits(c: Suite)
    requires Lawful(c)
    ensures c.maxPlaintext >= KEY_LEN
  {
  }

  /** What set_avatar answers, and what it sends: the image sealed under the cached master key and the drawn nonce. */
  lemma SetAvatarDecides(c: Suite, s: State, png: Bytes, nonce: Bytes, answer: Result<(), RpcError>, faults: Faults)
    requires Lawful(c) && WellFormed(s.vault) && |nonce| == NONCE_LEN
    ensures SetAvatar(c, s, png, nonce, answer, faults) ==
            if faults(0) then Err(StorageFailed)
            else if MasterKey !in s.vault then Err(NotSignedIn)
            else if |png| > c.maxPlaintext then Err(CryptoRefused)
            else if s.inner.session.None? then Err(NotSignedIn)
            else if answer.Err? then Err(ServerFailed)
            else Ok(())
    ensures var sent := SealAvatar(c, s, png, nonce, faults);
            && (sent.Ok? <==> !faults(0) && MasterKey in s.vault && |png| <= c.maxPlaintext && s.inner.session.Some?)
            && (sent.Ok? ==>
                  && |sent.value| >= NONCE_LEN && sent.value[..NONCE_LEN] == nonce
                  && Open(c, s.vault[MasterKey].bytes, sent.value) == Ok(png))
  {
    LawfulParts(c);
    hide Lawful, OutputLengths, AeadInverts, AeadCommits, Seal, Open, IsSealed;
    if MasterKey in s.vault {
      var master := s.vault[MasterKey].bytes;
      SealFrames(c, master, nonce, png);
      var sealed := Seal(c, master, nonce, png);
      if sealed.Ok? {
        SealedOpensUnderItsKeyOnly(c, master, png, sealed.value, master);
        SealedIsLong(c, master, png, sealed.value);
      }
    }
  }

  lemma SealedIsLong(c: Suite, key: Bytes, plaintext: Bytes, blob: Bytes)
    requires IsSealed(c, key, plaintext, blob)
    ensures |blob| >= NONCE_LEN
  {
  }

  /** What get_avatar answers to any bytes the server may send. */
  lemma GetAvatarDecides(c: Suite, s: State, answer: Result<Bytes, RpcError>, faults: Faults)
    requires WellFormed(s.vault)
    ensures GetAvatar(c, s, answer, faults) ==
            if faults(0) then Err(StorageFailed)
            else if MasterKey !in s.vault || s.inner.session.None? then Err(NotSignedIn)
            else if answer.Err? then Err(ServerFailed)
            else if answer.value == [] then Ok(None)
            else if Open(c, s.vault[MasterKey].bytes, answer.value).Ok?
            then Ok(Some(Open(c, s.vault[MasterKey].bytes, answer.value).value))
            else Err(CryptoRefused)
  {
  }

  // ---- sign_out and forget_server ----

  /** sign_out keeps the Secret Key, the device key and the profile, and forgets everything in memory. */
  lemma SignOutDecides(s: State, faults: Faults)
    ensures var (s', r) := SignOut(s, faults);
            && (r.Ok? <==> !faults(0) && !faults(1)) && (r.Err? ==> r == Err(StorageFailed) && s'.inner == s.inner)
            && (r.Ok? ==>
                  && s' == State(Inner(None, None, [], None, None, None), s'.vault)
                  && SessionToken !in s'.vault && MasterKey !in s'.vault
                  && forall e | e != SessionToken && e != MasterKey ::
                       (e in s'.vault <==> e in s.vault) && (e in s.vault ==> s'.vault[e] == s.vault[e]))
  {
    ClearSessionOutcome(s.vault, faults);
  }

  /** forget_server leaves nothing at all. */
  lemma ForgetDecides(s: State, faults: Faults)
    ensures var (s', r) := ForgetServer(s, faults);
            && (r.Ok? <==> NoneRefused(faults, 0, 5)) && (r.Err? ==> r == Err(StorageFailed) && s'.inner == s.inner)
            && (r.Ok? ==> s' == State(Inner(None, None, [], None, None, None), map[]))
  {
    var k := ClearOutcome(s.vault, faults);
  }

  // ---- Reading the vault back ----

  /** Each entry reads back as it was written, is missing exactly when it is not there, and a value of the wrong size or
      kind is an error. */
  lemma VaultReadsBack(v: Entries)
    ensures forall key: Bytes | |key| == 32 :: ReadMasterKey(v[MasterKey := Raw(key)], false) == Ok(Some(key))
    ensures forall key: Bytes | |key| != 32 :: ReadMasterKey(v[MasterKey := Raw(key)], false) == Err(MalformedValue)
    ensures forall key: Bytes | |key| == 20 :: ReadSecretKey(v[SecretKey := Raw(key)], false) == Ok(Some(key))
    ensures forall key: Bytes | |key| != 20 :: ReadSecretKey(v[SecretKey := Raw(key)], false) == Err(MalformedValue)
    ensures forall token :: ReadSessionToken(v[SessionToken := Text(token)], false) == Ok(Some(token))
    ensures forall profile :: ReadProfile(v[Profile := Json(profile)], false) == Ok(Some(profile))
    ensures ReadMasterKey(v, false) == Ok(None) <==> MasterKey !in v
    ensures ReadSecretKey(v, false) == Ok(None) <==> SecretKey !in v
    ensures ReadSessionToken(v, false) == Ok(None) <==> SessionToken !in v
    ensures ReadProfile(v, false) == Ok(None) <==> Profile !in v
  {
  }
}
