/** What refused store operations can and cannot break. The write and delete orders of `persist` and `clear_session`
    keep a stored token with its keys, those of `clear` do so but for stated refusals, and the profile goes last. No
    order keeps the entries of two logins apart: the second half says exactly when those mix, and what `restore`
    then makes of it. */
module ClientFailures {
  import opened Common
  import opened Primitives
  import opened Crypto
  import opened Storage
  import opened Transport
  import opened Flows
  import opened ClientSpec
  import opened ClientRuns

  predicate ForgetFails(c: Suite, s: State, call: Call) {
    call.CallForget? && Step(c, s, call).1.result.Err?
  }

  lemma PersistKeepsTokenSafe(v: Entries, d: ToCache, k: nat)
    requires TokenHasKeys(v)
    ensures TokenHasKeys(Written(v, d, k))
  {
  }

  lemma CreateOwnerIsSafe(c: Suite, s: State, e: FreshEntropy, device: Bytes, password: Bytes,
                          created: Result<Session, RpcError>, faults: Faults)
    requires TokenHasKeys(s.vault)
    ensures TokenHasKeys(CreateOwner(c, s, e, device, password, created, faults).0.vault)
  {
    hide EnrollNewOwner, PersistWrites, WriteAll;
    var enrolled := EnrollNewOwner(c, e, password, DEFAULT_PARAMS, created);
    if s.inner.channel.Some? && s.inner.verified.Some? && enrolled.Ok? {
      var d := ToCache(s.inner.verified.value.identityPublic, enrolled.value.userId, enrolled.value.token,
                       enrolled.value.identity.masterKey, enrolled.value.secretKey, Some(device), s.inner.endpoints);
      var k := PersistOutcome(s.vault, d, faults, 0);
      PersistKeepsTokenSafe(s.vault, d, k);
    }
  }

  lemma SignInIsSafe(c: Suite, s: State, password: Bytes, typed: Option<string>, login: Result<LoginOutcome, RpcError>,
                     material: Result<KeyMaterial, RpcError>, faults: Faults)
    requires TokenHasKeys(s.vault)
    ensures TokenHasKeys(SignIn(c, s, password, typed, login, material, faults).0.vault)
  {
    hide ResolveSecretKey, Login, PersistWrites, WriteAll;
    var resolved := ResolveSecretKey(s, typed, faults(0));
    if resolved.Ok? && s.inner.channel.Some? && s.inner.verified.Some? {
      var loggedIn := Login(c, login, material, password, resolved.value);
      if loggedIn.Ok? {
        var d := ToCache(s.inner.verified.value.identityPublic, loggedIn.value.userId, loggedIn.value.token,
                         loggedIn.value.identity.masterKey, resolved.value, None, s.inner.endpoints);
        var k := PersistOutcome(s.vault, d, faults, 1);
        PersistKeepsTokenSafe(s.vault, d, k);
      }
    }
  }

  /** Exactly the full wipes that stop after the master key and before the token break the property: when the
      token was there, the first deletion went through and one of the next three was refused. */
  lemma ForgetIsSafeExactly(s: State, faults: Faults)
    requires TokenHasKeys(s.vault)
    ensures TokenHasKeys(ForgetServer(s, faults).0.vault) <==>
            SessionToken !in s.vault || faults(0) || (!faults(1) && !faults(2) && !faults(3))
  {
    var k := ClearOutcome(s.vault, faults);
  }

  /** These calls leave the vault alone, up to the device secret. */
  lemma EasyCallsKeepVault(c: Suite, s: State, call: Call)
    requires !call.CallCreateOwner? && !call.CallSignIn? && !call.CallSignOut? && !call.CallForget?
    ensures forall e: Entry | e != DeviceSecret ::
              var v := Step(c, s, call).0.vault; (e in v <==> e in s.vault) && (e in v ==> v[e] == s.vault[e])
  {
    hide DiscoverAndConnect, PrepareChange, GetAvatar, SealAvatar;
  }

  lemma StepIsSafe(c: Suite, s: State, call: Call)
    requires TokenHasKeys(s.vault) && !ForgetFails(c, s, call)
    ensures TokenHasKeys(Step(c, s, call).0.vault)
  {
    hide CreateOwner, SignIn, Connect, Restore, EnrollDevice, PrepareChange, GetAvatar, SealAvatar;
    if !call.CallCreateOwner? && !call.CallSignIn? && !call.CallSignOut? && !call.CallForget? {
      EasyCallsKeepVault(c, s, call);
    }
    match call
    case CallCreateOwner(e, device, password, created, faults) =>
      CreateOwnerIsSafe(c, s, e, device, password, created, faults);
    case CallSignIn(password, typed, login, material, faults) =>
      SignInIsSafe(c, s, password, typed, login, material, faults);
    case CallSignOut(faults) => ClearSessionOutcome(s.vault, faults);
    case CallForget(faults) => var k := ClearOutcome(s.vault, faults);
    case _ =>
  }

  /** In every run where no forget_server failed partway, a stored token comes with both keys. */
  lemma {:induction false} TokenImpliesKeys(c: Suite, calls: seq<Call>)
    requires forall i | 0 <= i < |calls| :: !ForgetFails(c, Run(c, FRESH, calls[..i]), calls[i])
    ensures TokenHasKeys(Run(c, FRESH, calls).vault)
  {
    if calls != [] {
      var n := |calls| - 1;
      var before := calls[..n];
      assert forall i | 0 <= i < n :: before[..i] == calls[..i];
      TokenImpliesKeys(c, before);
      StepIsSafe(c, Run(c, FRESH, before), calls[n]);
    }
  }

  /** From any state at all, a call that makes the profile disappear leaves nothing else behind either. */
  lemma ProfileGoesLast(c: Suite, s: State, call: Call)
    ensures Profile in s.vault && Profile !in Step(c, s, call).0.vault ==> Step(c, s, call).0.vault == map[]
  {
    hide CreateOwner, SignIn, Connect, Restore, EnrollDevice, PrepareChange, GetAvatar, SealAvatar;
    if !call.CallCreateOwner? && !call.CallSignIn? && !call.CallSignOut? && !call.CallForget? {
      EasyCallsKeepVault(c, s, call);
    }
    match call
    case CallCreateOwner(e, device, password, created, faults) =>
      CreateOwnerKeepsProfile(c, s, e, device, password, created, faults);
    case CallSignIn(password, typed, login, material, faults) =>
      SignInKeepsProfile(c, s, password, typed, login, material, faults);
    case CallSignOut(faults) => ClearSessionOutcome(s.vault, faults);
    case CallForget(faults) => var k := ClearOutcome(s.vault, faults);
    case _ =>
  }

  lemma CreateOwnerKeepsProfile(c: Suite, s: State, e: FreshEntropy, device: Bytes, password: Bytes,
                                created: Result<Session, RpcError>, faults: Faults)
    ensures Profile in s.vault ==> Profile in CreateOwner(c, s, e, device, password, created, faults).0.vault
  {
    hide EnrollNewOwner, PersistWrites, WriteAll;
    var enrolled := EnrollNewOwner(c, e, password, DEFAULT_PARAMS, created);
    if s.inner.channel.Some? && s.inner.verified.Some? && enrolled.Ok? {
      var d := ToCache(s.inner.verified.value.identityPublic, enrolled.value.userId, enrolled.value.token,
                       enrolled.value.identity.masterKey, enrolled.value.secretKey, Some(device), s.inner.endpoints);
      var k := PersistOutcome(s.vault, d, faults, 0);
    }
  }

  lemma SignInKeepsProfile(c: Suite, s: State, password: Bytes, typed: Option<string>,
                           login: Result<LoginOutcome, RpcError>, material: Result<KeyMaterial, RpcError>,
                           faults: Faults)
    ensures Profile in s.vault ==> Profile in SignIn(c, s, password, typed, login, material, faults).0.vault
  {
    hide ResolveSecretKey, Login, PersistWrites, WriteAll;
    var resolved := ResolveSecretKey(s, typed, faults(0));
    if resolved.Ok? && s.inner.channel.Some? && s.inner.verified.Some? {
      var loggedIn := Login(c, login, material, password, resolved.value);
      if loggedIn.Ok? {
        var d := ToCache(s.inner.verified.value.identityPublic, loggedIn.value.userId, loggedIn.value.token,
                         loggedIn.value.identity.masterKey, resolved.value, None, s.inner.endpoints);
        var k := PersistOutcome(s.vault, d, faults, 1);
      }
    }
  }

  // ---- Entries of different logins ----

  /** Every entry there is, the device secret aside, is this login's. */
  predicate OnlyFrom(v: Entries, d: ToCache) {
    && (MasterKey in v ==> v[MasterKey] == Raw(d.masterKey))
    && (SecretKey in v ==> v[SecretKey] == Raw(d.secretKey))
    && (SessionToken in v ==> v[SessionToken] == Text(d.token))
    && (Profile in v ==> v[Profile] == Json(ProfileOf(d)))
  }

  /** The vault holds a login, whole or signed out. */
  predicate HoldsLogin(v: Entries, d: ToCache) {
    || Holds(v, Origins(Some(d), Some(d), Some(d), Some(d)))
    || Holds(v, Origins(None, Some(d), None, Some(d)))
  }

  predicate Distinct(a: ToCache, b: ToCache) {
    a.masterKey != b.masterKey && a.secretKey != b.secretKey && a.token != b.token && ProfileOf(a) != ProfileOf(b)
  }

  /** What the first k writes of d leave of a vault that held another login: still that login exactly when they wrote
      nothing new, already d exactly when they left nothing of the other. */
  lemma WrittenIsFrom(v: Entries, held: ToCache, d: ToCache, k: nat)
    requires HoldsLogin(v, held) && k <= 5
    ensures OnlyFrom(Written(v, d, k), held) <==>
              && (k >= 1 ==> d.masterKey == held.masterKey) && (k >= 2 ==> d.secretKey == held.secretKey)
              && (k >= 3 ==> d.token == held.token) && (k >= 5 ==> ProfileOf(d) == ProfileOf(held))
    ensures OnlyFrom(Written(v, d, k), d) <==>
              && (k < 1 && MasterKey in v ==> d.masterKey == held.masterKey)
              && (k < 2 ==> d.secretKey == held.secretKey)
              && (k < 3 && SessionToken in v ==> d.token == held.token) && (k < 5 ==> ProfileOf(d) == ProfileOf(held))
  {
  }

  /** Over a login that differs in everything, a persist leaves that login exactly when its first write is refused,
      the new one exactly when none is, and otherwise a mix of the two. */
  lemma RefusedPersistMixesExactly(v: Entries, held: ToCache, d: ToCache, faults: Faults, at: nat)
    requires HoldsLogin(v, held) && Distinct(held, d)
    ensures var (v', ok) := WriteAll(v, PersistWrites(d), faults, at);
            (OnlyFrom(v', held) <==> faults(at)) && (OnlyFrom(v', d) <==> ok)
  {
    hide WriteAll, PersistWrites, OnlyFrom, HoldsLogin, Written;
    var k := PersistOutcome(v, d, faults, at);
    WrittenIsFrom(v, held, d, k);
  }

  /** After a refused persist and a restart, `restore` has the user of the stored profile on whatever token there
      is: the new login's exactly when that write went through. */
  lemma RestoreAfterRefusedPersist(c: Suite, v: Entries, held: ToCache, d: ToCache, faults: Faults, at: nat,
                                   net: Network, nonce: Bytes, calm: Faults)
    requires HoldsLogin(v, held) && !calm(0) && !calm(1)
    ensures var (v', ok) := WriteAll(v, PersistWrites(d), faults, at);
            var (s', r) := Restore(c, State(INNER_DEFAULT, v'), net, nonce, calm);
            !ok ==>
              var token := if TokenWritten(faults, at) then d.token else held.token;
              && (r == Ok(Some(held.userId)) || r == Ok(None))
              && (r == Ok(Some(held.userId)) ==> s'.inner.session.Some? && s'.inner.session.value.token == token)
              && (r == Ok(Some(held.userId)) <==>
                    && (TokenWritten(faults, at) || SessionToken in v)
                    && Resume(c, INNER_DEFAULT, ProfileOf(held), token, net, nonce).Some?)
  {
    hide WriteAll, PersistWrites, DiscoverAndConnect;
    var k := PersistOutcome(v, d, faults, at);
  }

  /** A sign_in whose token is written and whose profile is refused: after a restart the vault resumes as the
      previous user with the new login's token, wherever the stored profile's server still answers. */
  lemma RefusedSignInMixesUsers(c: Suite, s: State, held: ToCache, password: Bytes, typed: Option<string>,
                                login: Result<LoginOutcome, RpcError>, material: Result<KeyMaterial, RpcError>,
                                faults: Faults, net: Network, nonce: Bytes, calm: Faults)
    requires s.inner.channel.Some? && s.inner.verified.Some? && HoldsLogin(s.vault, held) && !calm(0) && !calm(1)
    requires ResolveSecretKey(s, typed, faults(0)).Ok?
    requires Login(c, login, material, password, ResolveSecretKey(s, typed, faults(0)).value).Ok?
    requires TokenWritten(faults, 1) && faults(4)
    ensures var loggedIn := Login(c, login, material, password, ResolveSecretKey(s, typed, faults(0)).value).value;
            var (s1, r1) := SignIn(c, s, password, typed, login, material, faults);
            var (s2, r2) := Restore(c, s1.(inner := INNER_DEFAULT), net, nonce, calm);
            && r1 == Err(StorageFailed)
            && (Resume(c, INNER_DEFAULT, ProfileOf(held), loggedIn.token, net, nonce).Some? <==>
                r2 == Ok(Some(held.userId)))
            && (r2 == Ok(Some(held.userId)) ==>
                  s2.inner.session.Some? && s2.inner.session.value.token == loggedIn.token)
  {
    hide ResolveSecretKey, Login, PersistWrites, WriteAll, Restore, Resume, HoldsLogin;
    var resolved := ResolveSecretKey(s, typed, faults(0)).value;
    var loggedIn := Login(c, login, material, password, resolved).value;
    var d := ToCache(s.inner.verified.value.identityPublic, loggedIn.userId, loggedIn.token,
                     loggedIn.identity.masterKey, resolved, None, s.inner.endpoints);
    LastWriteRefused(s.vault, d, faults, 1);
    RestoreAfterRefusedPersist(c, s.vault, held, d, faults, 1, net, nonce, calm);
  }

  lemma LastWriteRefused(v: Entries, d: ToCache, faults: Faults, at: nat)
    requires d.deviceSecret.None? && faults(at + 3)
    ensures !WriteAll(v, PersistWrites(d), faults, at).1
  {
    var w := PersistWrites(d);
    assert w[0..] == w;
    var v1 := v[w[0].0 := w[0].1];
    var v2 := v1[w[1].0 := w[1].1];
    WriteStep(v, w, 0, faults, at);
    WriteStep(v1, w, 1, faults, at + 1);
    WriteStep(v2, w, 2, faults, at + 2);
    WriteStep(v2[w[2].0 := w[2].1], w, 3, faults, at + 3);
  }
}
