/** Whole calls in the reachable states of `Devices`: what signs in, what a password change sends, which image
    arrives. */
module DeviceCalls {
  import opened Common
  import opened Primitives
  import opened Crypto
  import opened CryptoLaws
  import opened Storage
  import opened Flows
  import opened ClientSpec
  import opened ClientAnswers
  import opened SecretKeyCodec
  import opened SecretKeyLaws
  import opened Devices

  /** In any reachable state the server's bundle opens exactly under its password and the account's Secret Key. */
  lemma ServedBundleOpensExactly(c: Suite, a: Account, server: Server, password: Bytes, key: Bytes)
    requires Lawful(c) && |a.secretKey| == |key| == SECRET_KEY_LEN && password in c.passwords
    requires ServerHolds(c, a, server.password, server.bundle)
    ensures KeyMaterialToBundle(BundleToKeyMaterial(server.bundle)) == server.bundle
    ensures Unlock(c, server.bundle, password, key).Ok? <==> password == server.password && key == a.secretKey
    ensures Unlock(c, server.bundle, server.password, a.secretKey) == Ok(a.identity)
  {
    hide Lawful, Carries, Unlock;
    BridgeRoundTrip(server.bundle, BundleToKeyMaterial(server.bundle));
    UnlockFixesBothFactors(c, server.bundle, server.password, a.secretKey, a.identity, password, key);
  }

  /** A device signs in with a typed Secret Key, new or not: at any point of any run, connected and granted by the
      server, it succeeds exactly when the text parses to the account's key and the password is current. Then it
      caches the account's Secret Key and master key; otherwise it is refused and nothing changes. */
  lemma SignInWithTypedKey(c: Suite, f: Founding, a: Account, events: seq<Event>, device: nat, session: Session,
                           password: Bytes, text: string, faults: Faults)
    requires LawfulRun(c, f, a, events) && password in c.passwords && forall i :: !faults(i)
    ensures var s := FireAll(c, Founded(c, f, a), events);
            device in s.devices && IsConnected(s.devices[device]) && Parse(text).Ok? ==>
              var state := s.devices[device];
              var (d, r) := SignIn(c, state, password, Some(text), Ok(SessionGranted(session)),
                                   Ok(BundleToKeyMaterial(s.server.bundle)), faults);
              if Parse(text) == Ok(a.secretKey) && password == s.server.password
              then r == Ok(Success(session.userId)) && SignedInAs(state, d, a.identity, a.secretKey, session)
              else r == Err(CryptoRefused) && d == state
  {
    hide Lawful, LawfulRun, FireAll, Founded, ServerHolds, DeviceHolds, SignIn, Unlock, Parse;
    ReachableDevice(c, f, a, events, device);
    LawfulOfRun(c, f, a, events);
    var s := FireAll(c, Founded(c, f, a), events);
    if device in s.devices && IsConnected(s.devices[device]) && Parse(text).Ok? {
      var key := Parse(text).value;
      ParsedSize(text);
      ServedBundleOpensExactly(c, a, s.server, password, key);
      SignInDecides(c, s.devices[device], password, Some(text), session, BundleToKeyMaterial(s.server.bundle), faults,
                    key);
    }
  }

  lemma ParsedSize(text: string)
    ensures Parse(text).Ok? ==> |Parse(text).value| == SECRET_KEY_LEN
  {
  }

  lemma LawfulOfRun(c: Suite, f: Founding, a: Account, events: seq<Event>)
    requires LawfulRun(c, f, a, events)
    ensures Lawful(c)
  {
    hide Lawful, AccountOf, Admissible;
  }

  /** In particular the text that create_owner showed the user signs in on any device. */
  lemma ShownKeySignsIn(c: Suite, f: Founding, a: Account, events: seq<Event>, device: nat, session: Session,
                        faults: Faults)
    requires LawfulRun(c, f, a, events) && forall i :: !faults(i)
    ensures var s := FireAll(c, Founded(c, f, a), events);
            device in s.devices && IsConnected(s.devices[device]) ==>
              SignIn(c, s.devices[device], s.server.password, Some(Display(a.secretKey)), Ok(SessionGranted(session)),
                     Ok(BundleToKeyMaterial(s.server.bundle)), faults).1 == Ok(Success(session.userId))
  {
    hide Lawful, LawfulRun, FireAll, Founded, DeviceHolds, SignIn, Carries, Display, Parse;
    ReachableDevice(c, f, a, events, device);
    DisplayRoundTrip(a.secretKey);
    var s := FireAll(c, Founded(c, f, a), events);
    SignInWithTypedKey(c, f, a, events, device, session, s.server.password, Display(a.secretKey), faults);
  }

  /** The request names these two passwords, wraps under the drawn salt and nonce, and the bundle with its rewrap opens
      under the new password to the account's keys. */
  predicate IsChangeTo(c: Suite, a: Account, bundle: KeyBundle, sent: ChangeRequest, current: Bytes, newPassword: Bytes,
                       salt: Bytes, nonce: Bytes)
  {
    && sent.currentPassword == current && sent.newPassword == newPassword
    && sent.rewrapped.kdfSalt == salt && sent.rewrapped.kdfParams == ParamsJson(KdfParams(65536, 3, 4))
    && |sent.rewrapped.masterKeyWrapped| >= NONCE_LEN && sent.rewrapped.masterKeyWrapped[..NONCE_LEN] == nonce
    && Unlock(c, WithRewrap(bundle, sent.rewrapped), newPassword, a.secretKey) == Ok(a.identity)
  }

  /** What change_password sends in any reachable state, with the server's own bundle: a request exactly when the key is
      cached and readable, a session exists, the current password is the server's and Argon2id takes the new one. */
  lemma ChangePasswordSends(c: Suite, f: Founding, a: Account, events: seq<Event>, device: nat, current: Bytes,
                            newPassword: Bytes, salt: Bytes, nonce: Bytes, faults: Faults)
    requires LawfulRun(c, f, a, events) && current in c.passwords && |nonce| == NONCE_LEN
    ensures var s := FireAll(c, Founded(c, f, a), events);
            device in s.devices ==>
              var state := s.devices[device];
              var sent := PrepareChange(c, state, current, newPassword, Ok(BundleToKeyMaterial(s.server.bundle)),
                                        salt, nonce, faults).ToOption();
              && (sent.Some? <==>
                    && !faults(0) && SecretKey in state.vault && state.inner.session.Some?
                    && current == s.server.password && c.argon2id(newPassword, salt, KdfParams(65536, 3, 4)).Some?)
              && (sent.Some? ==> IsChangeTo(c, a, s.server.bundle, sent.value, current, newPassword, salt, nonce))
  {
    hide *;
    ReachableDevice(c, f, a, events, device);
    var s := FireAll(c, Founded(c, f, a), events);
    if device in s.devices {
      ChangeSentAt(c, a, s.server, s.devices[device], current, newPassword, salt, nonce, faults);
    }
  }

  lemma ChangeSentAt(c: Suite, a: Account, server: Server, state: State, current: Bytes, newPassword: Bytes,
                     salt: Bytes, nonce: Bytes, faults: Faults)
    requires Lawful(c) && |a.secretKey| == SECRET_KEY_LEN && DeviceHolds(a, state)
    requires ServerHolds(c, a, server.password, server.bundle) && current in c.passwords && |nonce| == NONCE_LEN
    ensures var sent := PrepareChange(c, state, current, newPassword, Ok(BundleToKeyMaterial(server.bundle)), salt,
                                      nonce, faults).ToOption();
            && (sent.Some? <==>
                  && !faults(0) && SecretKey in state.vault && state.inner.session.Some?
                  && current == server.password && c.argon2id(newPassword, salt, KdfParams(65536, 3, 4)).Some?)
            && (sent.Some? ==> IsChangeTo(c, a, server.bundle, sent.value, current, newPassword, salt, nonce))
  {
    LawfulParts(c);
    ServedBundleOpensExactly(c, a, server, current, a.secretKey);
    var change := Change(newPassword, DEFAULT_PARAMS, salt, nonce);
    RewrapCarries(c, server.bundle, server.password, a.secretKey, a.identity, change);
    hide Lawful, Carries, Unlock, Rewrap, OutputLengths, AeadInverts, AeadCommits;
    var r := Rewrap(c, a.identity.masterKey, a.secretKey, newPassword, DEFAULT_PARAMS, salt, nonce);
    if r.Ok? {
      var after := WithRewrap(server.bundle, r.value);
      UnlockExactly(c, after, newPassword, a.secretKey, a.identity, newPassword, a.secretKey);
      CarriesDerives(c, after, newPassword, a.secretKey, a.identity);
    }
  }

  lemma CarriesDerives(c: Suite, bundle: KeyBundle, password: Bytes, secretKey: Bytes, id: Identity)
    requires Carries(c, bundle, password, secretKey, id)
    ensures bundle.kdfParams.ParamsJson? && Kek(c, password, secretKey, bundle.kdfSalt, bundle.kdfParams.params).Ok?
    ensures |bundle.masterKeyWrapped| >= NONCE_LEN
  {
  }

  /** What set_avatar sends from one device, any signed-in device with its master key cached reads as that image. */
  lemma AvatarArrives(c: Suite, f: Founding, a: Account, events: seq<Event>, from: nat, to: nat, png: Bytes,
                      nonce: Bytes, faults: Faults)
    requires LawfulRun(c, f, a, events) && |nonce| == NONCE_LEN && forall i :: !faults(i)
    ensures var s := FireAll(c, Founded(c, f, a), events);
            && from in s.devices && to in s.devices
            && MasterKey in s.devices[to].vault && s.devices[to].inner.session.Some? ==>
              var sent := SealAvatar(c, s.devices[from], png, nonce, faults);
              && (sent.Ok? <==> MasterKey in s.devices[from].vault && s.devices[from].inner.session.Some?
                                && |png| <= c.maxPlaintext)
              && (sent.Ok? ==> GetAvatar(c, s.devices[to], Ok(sent.value), faults) == Ok(Some(png)))
  {
    hide *;
    var s := FireAll(c, Founded(c, f, a), events);
    ReachableDevice(c, f, a, events, from);
    ReachableDevice(c, f, a, events, to);
    if from in s.devices && to in s.devices {
      AvatarArrivesAt(c, a, s.devices[from], s.devices[to], png, nonce, faults);
    }
  }

  lemma AvatarArrivesAt(c: Suite, a: Account, from: State, to: State, png: Bytes, nonce: Bytes, faults: Faults)
    requires Lawful(c) && a.identity.WellSized() && DeviceHolds(a, from) && DeviceHolds(a, to)
    requires |nonce| == NONCE_LEN && forall i :: !faults(i)
    ensures MasterKey in to.vault && to.inner.session.Some? ==>
              var sent := SealAvatar(c, from, png, nonce, faults);
              && (sent.Ok? <==> MasterKey in from.vault && from.inner.session.Some? && |png| <= c.maxPlaintext)
              && (sent.Ok? ==> GetAvatar(c, to, Ok(sent.value), faults) == Ok(Some(png)))
  {
    LawfulParts(c);
    SealFrames(c, a.identity.masterKey, nonce, png);
    hide OutputLengths, AeadInverts, AeadCommits, Seal, Open, IsSealed;
    var sealed := Seal(c, a.identity.masterKey, nonce, png);
    if sealed.Ok? {
      AvatarOpens(c, a.identity.masterKey, png, sealed.value);
    }
  }
}
