/** One account on any number of devices, with any number of calls under way on each. Every call is split at each
    message and at each single store write or deletion, so calls of all devices, and of one device, interleave
    freely; the lock inside a client only takes interleavings away. The server checks the current password and swaps
    verifier and wrap in one step. */
module Devices {
  import opened Common
  import opened Primitives
  import opened Crypto
  import opened CryptoLaws
  import opened Storage
  import opened Transport
  import opened Flows
  import opened ClientSpec
  import opened ClientRuns

  datatype Server = Server(password: Bytes, bundle: KeyBundle, avatar: Bytes)

  /** A call under way on a device, with what it has read and been told so far. */
  datatype Pending =
    | Resolved(device: nat, password: Bytes, key: Bytes)
    | Granted(device: nat, password: Bytes, key: Bytes, session: Session)
    | SignInFetched(device: nat, password: Bytes, key: Bytes, session: Session, material: KeyMaterial)
    | Persisting(device: nat, cache: ToCache, identity: Identity, written: nat)
    | ChangeStarted(device: nat, key: Bytes, current: Bytes, newPassword: Bytes)
    | ChangeFetched(device: nat, key: Bytes, current: Bytes, newPassword: Bytes, material: KeyMaterial)
    | ChangeReady(device: nat, request: ChangeRequest)
    | AvatarReady(device: nat, png: Bytes, sealed: Bytes)
    /** A sign_out or forget_server: what it deletes, in order, and how far it got. */
    | Removing(device: nat, keys: seq<Entry>, deleted: nat)
    | Restoring(device: nat, profile: ServerProfile, token: string)

  /** `lastAvatar` remembers the image of the latest upload that reached the server. */
  datatype System = System(
    server: Server,
    devices: map<nat, State>,
    calls: map<nat, Pending>,
    lastAvatar: Option<Bytes>)

  datatype Event =
    | Join(device: nat)
    /** connect, enroll_this_device or a restart. */
    | Local(device: nat, step: Call)
    | AskSignIn(call: nat, device: nat, password: Bytes, typed: Option<string>)
    | Grant(call: nat, session: Session)
    | FetchForSignIn(call: nat)
    | UnlockFor(call: nat)
    | WriteNext(call: nat)
    | Commit(call: nat)
    | AskChange(call: nat, device: nat, current: Bytes, newPassword: Bytes)
    | FetchForChange(call: nat)
    | RewrapOf(call: nat, salt: Bytes, nonce: Bytes)
    | SendChange(call: nat)
    | SealAvatarOf(call: nat, device: nat, png: Bytes, nonce: Bytes)
    | SendAvatar(call: nat)
    | StartRemoval(call: nat, device: nat, everything: bool)
    | DeleteNext(call: nat)
    | Reset(call: nat)
    | StartRestore(call: nat, device: nat)
    | FinishRestore(call: nat, net: Network, nonce: Bytes)
    /** The call fails, a store operation of it is refused, or its process dies. */
    | Abandon(call: nat)

  predicate IsLocal(call: Call) { call.CallConnect? || call.CallEnroll? || call.Restart? }

  function Waiting(s: System, call: nat, p: Pending): System { s.(calls := s.calls[call := p]) }

  function Over(s: System, call: nat): System { s.(calls := s.calls - {call}) }

  function WithDevice(s: System, d: nat, state: State): System { s.(devices := s.devices[d := state]) }

  // ---- The events of a call ----

  /** The call starts; it reads the store before anything else. */
  function Begun(c: Suite, state: State, ev: Event): Option<Pending> {
    match ev
    case AskSignIn(_, d, password, typed) =>
      (match ResolveSecretKey(state, typed, false)
       case Err(_) => None
       case Ok(key) => Some(Resolved(d, password, key)))
    case AskChange(_, d, current, newPassword) =>
      (match ReadSecretKey(state.vault, false)
       case Ok(Some(key)) => Some(ChangeStarted(d, key, current, newPassword))
       case _ => None)
    case SealAvatarOf(_, d, png, nonce) =>
      (match CachedMasterKey(state, false)
       case Err(_) => None
       case Ok(master) =>
         match Seal(c, master, nonce, png)
         case Err(_) => None
         case Ok(sealed) => Some(AvatarReady(d, png, sealed)))
    case StartRemoval(_, d, everything) => Some(Removing(d, if everything then CLEAR_ORDER else CLEAR_SESSION_ORDER, 0))
    case StartRestore(_, d) =>
      (match (ReadProfile(state.vault, false), ReadSessionToken(state.vault, false))
       case (Ok(Some(profile)), Ok(Some(token))) => Some(Restoring(d, profile, token))
       case _ => None)
    case _ => None
  }

  /** A sign-in that has its bundle: unlock it, then start to persist. */
  function Unlocked(c: Suite, state: State, p: Pending): Option<Pending>
    requires p.SignInFetched?
  {
    match Login(c, Ok(SessionGranted(p.session)), Ok(p.material), p.password, p.key)
    case Err(_) => None
    case Ok(loggedIn) =>
      if state.inner.channel.None? || state.inner.verified.None? then None
      else
        var cache := ToCache(state.inner.verified.value.identityPublic, loggedIn.userId, loggedIn.token,
                             loggedIn.identity.masterKey, p.key, None, state.inner.endpoints);
        Some(Persisting(p.device, cache, loggedIn.identity, 0))
  }

  function SignedInState(state: State, cache: ToCache, identity: Identity): State
    requires state.inner.channel.Some?
  {
    state.(inner := state.inner.(session := Some(AccountSession(state.inner.channel.value, cache.token)),
                                 identity := Some(identity), secretKey := Some(cache.secretKey)))
  }

  /** The next event of a sign-in on this device. */
  function AdvanceSignIn(c: Suite, s: System, state: State, call: nat, p: Pending, ev: Event): System {
    match (p, ev)
    case (Resolved(d, password, key), Grant(_, session)) =>
      if password == s.server.password then Waiting(s, call, Granted(d, password, key, session)) else Over(s, call)
    case (Granted(d, password, key, session), FetchForSignIn(_)) =>
      Waiting(s, call, SignInFetched(d, password, key, session, BundleToKeyMaterial(s.server.bundle)))
    case (SignInFetched(_, _, _, _, _), UnlockFor(_)) =>
      (match Unlocked(c, state, p) case None => Over(s, call) case Some(p') => Waiting(s, call, p'))
    case (Persisting(d, cache, identity, k), WriteNext(_)) =>
      var writes := PersistWrites(cache);
      if k >= |writes| then s
      else
        var vault := state.vault[writes[k].0 := writes[k].1];
        WithDevice(Waiting(s, call, Persisting(d, cache, identity, k + 1)), d, state.(vault := vault))
    case (Persisting(d, cache, identity, k), Commit(_)) =>
      if k != |PersistWrites(cache)| || state.inner.channel.None? then s
      else WithDevice(Over(s, call), d, SignedInState(state, cache, identity))
    case _ => s
  }

  /** The next event of a change_password or set_avatar on this device. */
  function AdvanceRequest(c: Suite, s: System, state: State, call: nat, p: Pending, ev: Event): System {
    match (p, ev)
    case (ChangeStarted(d, key, current, newPassword), FetchForChange(_)) =>
      if state.inner.session.None? then Over(s, call)
      else Waiting(s, call, ChangeFetched(d, key, current, newPassword, BundleToKeyMaterial(s.server.bundle)))
    case (ChangeFetched(d, key, current, newPassword, material), RewrapOf(_, salt, nonce)) =>
      (match RewrapFor(c, key, current, newPassword, material, salt, nonce)
       case Err(_) => Over(s, call)
       case Ok(request) => Waiting(s, call, ChangeReady(d, request)))
    case (ChangeReady(_, request), SendChange(_)) =>
      if request.currentPassword == s.server.password then
        var bundle := WithRewrap(s.server.bundle, request.rewrapped);
        Over(s, call).(server := s.server.(password := request.newPassword, bundle := bundle))
      else Over(s, call)
    case (AvatarReady(_, png, sealed), SendAvatar(_)) =>
      if state.inner.session.None? then Over(s, call)
      else Over(s, call).(server := s.server.(avatar := sealed), lastAvatar := Some(png))
    case _ => s
  }

  /** The next event of a sign_out, forget_server or restore on this device. */
  function AdvanceStore(c: Suite, s: System, state: State, call: nat, p: Pending, ev: Event): System {
    match (p, ev)
    case (Removing(d, keys, k), DeleteNext(_)) =>
      if k >= |keys| then s
      else WithDevice(Waiting(s, call, Removing(d, keys, k + 1)), d, state.(vault := state.vault - {keys[k]}))
    case (Removing(d, keys, k), Reset(_)) =>
      if k != |keys| then s else WithDevice(Over(s, call), d, state.(inner := INNER_DEFAULT))
    case (Restoring(d, profile, token), FinishRestore(_, net, nonce)) =>
      (match Resume(c, state.inner, profile, token, net, nonce)
       case None => Over(s, call)
       case Some(inner) => WithDevice(Over(s, call), d, state.(inner := inner)))
    case _ => s
  }

  function Advance(c: Suite, s: System, call: nat, p: Pending, ev: Event): System {
    if p.device !in s.devices || ev.Abandon? then Over(s, call)
    else
      var state := s.devices[p.device];
      match p
      case Resolved(_, _, _) => AdvanceSignIn(c, s, state, call, p, ev)
      case Granted(_, _, _, _) => AdvanceSignIn(c, s, state, call, p, ev)
      case SignInFetched(_, _, _, _, _) => AdvanceSignIn(c, s, state, call, p, ev)
      case Persisting(_, _, _, _) => AdvanceSignIn(c, s, state, call, p, ev)
      case Removing(_, _, _) => AdvanceStore(c, s, state, call, p, ev)
      case Restoring(_, _, _) => AdvanceStore(c, s, state, call, p, ev)
      case _ => AdvanceRequest(c, s, state, call, p, ev)
  }

  /** One event; one that is not enabled changes nothing. */
  function Fire(c: Suite, s: System, ev: Event): System {
    if ev.Join? then if ev.device in s.devices then s else WithDevice(s, ev.device, FRESH)
    else if ev.Local? then
      if ev.device in s.devices && IsLocal(ev.step) then
        WithDevice(s, ev.device, Step(c, s.devices[ev.device], ev.step).0)
      else s
    else if ev.call in s.calls then Advance(c, s, ev.call, s.calls[ev.call], ev)
    else if (ev.AskSignIn? || ev.AskChange? || ev.SealAvatarOf? || ev.StartRemoval? || ev.StartRestore?)
            && ev.device in s.devices then
      match Begun(c, s.devices[ev.device], ev) case None => s case Some(p) => Waiting(s, ev.call, p)
    else s
  }

  function FireAll(c: Suite, s: System, events: seq<Event>): System {
    if events == [] then s else Fire(c, FireAll(c, s, events[..|events| - 1]), events[|events| - 1])
  }

  /** The passwords are among those free of Argon2id collisions, and nonces have the size that is drawn. */
  ghost predicate Admissible(c: Suite, ev: Event) {
    match ev
    case AskSignIn(_, _, password, _) => password in c.passwords
    case AskChange(_, _, current, newPassword) => current in c.passwords && newPassword in c.passwords
    case RewrapOf(_, _, nonce) => |nonce| == NONCE_LEN
    case SealAvatarOf(_, _, _, nonce) => |nonce| == NONCE_LEN
    case _ => true
  }

  /** The account as founded; nothing below ever changes it. */
  datatype Account = Account(secretKey: Bytes, identity: Identity, bundle: KeyBundle)

  // ---- The invariant ----

  /** A device caches no other keys than the account's. */
  predicate DeviceHolds(a: Account, s: State) {
    && (MasterKey in s.vault ==> s.vault[MasterKey] == Raw(a.identity.masterKey))
    && (SecretKey in s.vault ==> s.vault[SecretKey] == Raw(a.secretKey))
    && (s.inner.identity.Some? ==> s.inner.identity.value == a.identity)
    && (s.inner.secretKey.Some? ==> s.inner.secretKey.value == a.secretKey)
  }

  /** The bundle carries the account under some password. */
  ghost predicate CarriesSomehow(c: Suite, a: Account, bundle: KeyBundle) {
    exists password :: password in c.passwords && Carries(c, bundle, password, a.secretKey, a.identity)
  }

  ghost predicate PendingHolds(c: Suite, a: Account, p: Pending) {
    match p
    case Resolved(_, password, key) => password in c.passwords && |key| == SECRET_KEY_LEN
    case Granted(_, password, key, _) => password in c.passwords && |key| == SECRET_KEY_LEN
    case SignInFetched(_, password, key, _, material) =>
      password in c.passwords && |key| == SECRET_KEY_LEN && CarriesSomehow(c, a, KeyMaterialToBundle(material))
    case Persisting(_, cache, identity, _) =>
      identity == a.identity && cache.masterKey == a.identity.masterKey && cache.secretKey == a.secretKey
    case ChangeStarted(_, key, current, newPassword) =>
      key == a.secretKey && current in c.passwords && newPassword in c.passwords
    case ChangeFetched(_, key, current, newPassword, material) =>
      && key == a.secretKey && current in c.passwords && newPassword in c.passwords
      && CarriesSomehow(c, a, KeyMaterialToBundle(material))
    case ChangeReady(_, request) =>
      && request.newPassword in c.passwords
      && Carries(c, WithRewrap(a.bundle, request.rewrapped), request.newPassword, a.secretKey, a.identity)
    case AvatarReady(_, png, sealed) => IsSealed(c, a.identity.masterKey, png, sealed)
    case Removing(_, _, _) => true
    case Restoring(_, _, _) => true
  }

  /** The stored bundle carries the account under the server's password; only its master-key fields ever differ. */
  ghost predicate ServerHolds(c: Suite, a: Account, password: Bytes, bundle: KeyBundle) {
    && password in c.passwords
    && Carries(c, bundle, password, a.secretKey, a.identity)
    && bundle == a.bundle.(masterKeyWrapped := bundle.masterKeyWrapped, kdfSalt := bundle.kdfSalt,
                           kdfParams := bundle.kdfParams)
  }

  predicate AvatarHolds(c: Suite, a: Account, blob: Bytes, last: Option<Bytes>) {
    match last
    case None => blob == []
    case Some(png) => IsSealed(c, a.identity.masterKey, png, blob)
  }

  ghost predicate Continuous(c: Suite, a: Account, s: System) {
    && |a.secretKey| == SECRET_KEY_LEN && a.identity.WellSized()
    && ServerHolds(c, a, s.server.password, s.server.bundle)
    && AvatarHolds(c, a, s.server.avatar, s.lastAvatar)
    && (forall d | d in s.devices :: DeviceHolds(a, s.devices[d]))
    && (forall call | call in s.calls :: PendingHolds(c, a, s.calls[call]))
  }

  // ---- What each step keeps ----

  /** The server let the password pass; the local unlock succeeds exactly when the password is the one the
      bundle is wrapped under and the Secret Key is the account's. */
  lemma LoginExactly(c: Suite, a: Account, session: Session, material: KeyMaterial, wrapped: Bytes, password: Bytes,
                     secretKey: Bytes)
    requires Lawful(c) && |a.secretKey| == |secretKey| == SECRET_KEY_LEN
    requires password in c.passwords && wrapped in c.passwords
    requires Carries(c, KeyMaterialToBundle(material), wrapped, a.secretKey, a.identity)
    ensures var r := Login(c, Ok(SessionGranted(session)), Ok(material), password, secretKey);
            && (r.Ok? <==> password == wrapped && secretKey == a.secretKey)
            && (r.Ok? ==> r.value == LoggedIn(session.token, session.userId, a.identity))
            && (r.Err? ==> r.error.CryptoFailed?)
  {
    hide Lawful, Carries, Unlock;
    UnlockFixesBothFactors(c, KeyMaterialToBundle(material), wrapped, a.secretKey, a.identity, password, secretKey);
  }

  /** What a sign-in goes on to persist is the account's own: success has fixed both factors. */
  lemma UnlockedHolds(c: Suite, a: Account, state: State, p: Pending)
    requires Lawful(c) && |a.secretKey| == SECRET_KEY_LEN && p.SignInFetched? && PendingHolds(c, a, p)
    ensures Unlocked(c, state, p).Some? ==> PendingHolds(c, a, Unlocked(c, state, p).value)
  {
    hide Lawful, Carries, Login;
    var wrapped :| && wrapped in c.passwords
                   && Carries(c, KeyMaterialToBundle(p.material), wrapped, a.secretKey, a.identity);
    LoginExactly(c, a, p.session, p.material, wrapped, p.password, p.key);
  }

  lemma WriteHolds(a: Account, state: State, cache: ToCache, k: nat)
    requires DeviceHolds(a, state) && k < |PersistWrites(cache)|
    requires cache.masterKey == a.identity.masterKey && cache.secretKey == a.secretKey
    ensures DeviceHolds(a, state.(vault := state.vault[PersistWrites(cache)[k].0 := PersistWrites(cache)[k].1]))
  {
  }

  /** A request that passes the local check carries the account's own master key under the new password. */
  lemma RewrappedHolds(c: Suite, a: Account, p: Pending, salt: Bytes, nonce: Bytes)
    requires Lawful(c) && |a.secretKey| == SECRET_KEY_LEN && p.ChangeFetched? && PendingHolds(c, a, p)
    requires CarriesSomehow(c, a, a.bundle) && |nonce| == NONCE_LEN
    ensures var r := RewrapFor(c, p.key, p.current, p.newPassword, p.material, salt, nonce);
            r.Ok? ==> r.value.newPassword == p.newPassword && r.value.currentPassword == p.current &&
                      PendingHolds(c, a, ChangeReady(p.device, r.value))
  {
    hide Lawful, AeadInverts, Carries, Unlock, Rewrap;
    var wrapped :| && wrapped in c.passwords
                   && Carries(c, KeyMaterialToBundle(p.material), wrapped, a.secretKey, a.identity);
    UnlockFixesBothFactors(c, KeyMaterialToBundle(p.material), wrapped, a.secretKey, a.identity, p.current, p.key);
    var first :| Carries(c, a.bundle, first, a.secretKey, a.identity);
    LawfulInverts(c);
    RewrapCarries(c, a.bundle, first, a.secretKey, a.identity, Change(p.newPassword, DEFAULT_PARAMS, salt, nonce));
  }

  lemma LawfulInverts(c: Suite)
    requires Lawful(c)
    ensures AeadInverts(c)
  {
    hide AeadInverts;
  }

  /** A rewrap prepared at any time leaves the private-key wraps alone, so it fits whatever bundle is stored now. */
  lemma SentChangeHolds(c: Suite, a: Account, server: Server, p: Pending)
    requires ServerHolds(c, a, server.password, server.bundle) && p.ChangeReady? && PendingHolds(c, a, p)
    ensures ServerHolds(c, a, p.request.newPassword, WithRewrap(server.bundle, p.request.rewrapped))
  {
    hide Carries;
    assert WithRewrap(server.bundle, p.request.rewrapped) == WithRewrap(a.bundle, p.request.rewrapped);
  }

  /** What the server stores survives the wire. */
  lemma ServerCarriesSomehow(c: Suite, a: Account, server: Server)
    requires ServerHolds(c, a, server.password, server.bundle)
    ensures CarriesSomehow(c, a, KeyMaterialToBundle(BundleToKeyMaterial(server.bundle)))
  {
    hide Carries;
    BridgeRoundTrip(server.bundle, BundleToKeyMaterial(server.bundle));
  }

  lemma BegunHolds(c: Suite, a: Account, state: State, ev: Event)
    requires AeadInverts(c) && DeviceHolds(a, state) && Admissible(c, ev)
    ensures Begun(c, state, ev).Some? ==> PendingHolds(c, a, Begun(c, state, ev).value)
  {
    hide AeadInverts, Seal, IsSealed, ResolveSecretKey, ReadProfile, ReadSessionToken;
    if ev.SealAvatarOf? {
      SealFrames(c, a.identity.masterKey, ev.nonce, ev.png);
    }
  }

  lemma AdvanceSignInIsContinuous(c: Suite, a: Account, s: System, call: nat, ev: Event)
    requires Lawful(c) && Continuous(c, a, s) && call in s.calls && s.calls[call].device in s.devices
    ensures var p := s.calls[call]; Continuous(c, a, AdvanceSignIn(c, s, s.devices[p.device], call, p, ev))
  {
    hide Lawful, Carries, CarriesSomehow, IsSealed, ServerHolds, Unlocked, PersistWrites;
    var p := s.calls[call];
    var state := s.devices[p.device];
    ServerCarriesSomehow(c, a, s.server);
    if p.SignInFetched? {
      UnlockedHolds(c, a, state, p);
    }
    if p.Persisting? && p.written < |PersistWrites(p.cache)| {
      WriteHolds(a, state, p.cache, p.written);
    }
  }

  lemma AdvanceRequestIsContinuous(c: Suite, a: Account, s: System, call: nat, ev: Event)
    requires Lawful(c) && Continuous(c, a, s) && call in s.calls && s.calls[call].device in s.devices
    requires Admissible(c, ev) && CarriesSomehow(c, a, a.bundle)
    ensures var p := s.calls[call]; Continuous(c, a, AdvanceRequest(c, s, s.devices[p.device], call, p, ev))
  {
    hide Lawful, Carries, CarriesSomehow, IsSealed, ServerHolds, RewrapFor, WithRewrap, DeviceHolds;
    var p := s.calls[call];
    ServerCarriesSomehow(c, a, s.server);
    if p.ChangeFetched? && ev.RewrapOf? {
      RewrappedHolds(c, a, p, ev.salt, ev.nonce);
    }
    if p.ChangeReady? {
      SentChangeHolds(c, a, s.server, p);
    }
  }

  lemma AdvanceStoreIsContinuous(c: Suite, a: Account, s: System, call: nat, ev: Event)
    requires Continuous(c, a, s) && call in s.calls && s.calls[call].device in s.devices
    ensures var p := s.calls[call]; Continuous(c, a, AdvanceStore(c, s, s.devices[p.device], call, p, ev))
  {
    hide Carries, CarriesSomehow, IsSealed, ServerHolds, DiscoverAndConnect;
  }

  lemma AdvanceIsContinuous(c: Suite, a: Account, s: System, call: nat, ev: Event)
    requires Lawful(c) && Continuous(c, a, s) && Admissible(c, ev) && CarriesSomehow(c, a, a.bundle) && call in s.calls
    ensures Continuous(c, a, Advance(c, s, call, s.calls[call], ev))
  {
    hide Lawful, CarriesSomehow, Admissible, AdvanceSignIn, AdvanceRequest, AdvanceStore, Continuous;
    OverIsContinuous(c, a, s, call);
    if s.calls[call].device in s.devices {
      AdvanceSignInIsContinuous(c, a, s, call, ev);
      AdvanceRequestIsContinuous(c, a, s, call, ev);
      AdvanceStoreIsContinuous(c, a, s, call, ev);
    }
  }

  lemma OverIsContinuous(c: Suite, a: Account, s: System, call: nat)
    requires Continuous(c, a, s)
    ensures Continuous(c, a, Over(s, call))
  {
    hide ServerHolds, AvatarHolds, PendingHolds, DeviceHolds;
  }

  lemma DeviceIsContinuous(c: Suite, a: Account, s: System, d: nat, state: State)
    requires Continuous(c, a, s) && DeviceHolds(a, state)
    ensures Continuous(c, a, WithDevice(s, d, state))
  {
    hide ServerHolds, AvatarHolds, PendingHolds, DeviceHolds;
  }

  lemma WaitingIsContinuous(c: Suite, a: Account, s: System, call: nat, p: Pending)
    requires Continuous(c, a, s) && PendingHolds(c, a, p)
    ensures Continuous(c, a, Waiting(s, call, p))
  {
    hide ServerHolds, AvatarHolds, PendingHolds, DeviceHolds;
  }

  /** Every event of every call on every device keeps the account's invariant. */
  lemma FireIsContinuous(c: Suite, a: Account, s: System, ev: Event)
    requires Lawful(c) && Continuous(c, a, s) && Admissible(c, ev) && CarriesSomehow(c, a, a.bundle)
    ensures Continuous(c, a, Fire(c, s, ev))
  {
    hide Lawful, AeadInverts, CarriesSomehow, Continuous, PendingHolds, DeviceHolds, Step, Begun, Advance, Admissible;
    LawfulInverts(c);
    EachDeviceHolds(c, a, s);
    if ev.Join? {
      FreshHolds(a);
      DeviceIsContinuous(c, a, s, ev.device, FRESH);
    } else if ev.Local? {
      if ev.device in s.devices && IsLocal(ev.step) {
        LocalKeepsDevice(c, a, s.devices[ev.device], ev.step);
        DeviceIsContinuous(c, a, s, ev.device, Step(c, s.devices[ev.device], ev.step).0);
      }
    } else if ev.call in s.calls {
      AdvanceIsContinuous(c, a, s, ev.call, ev);
    } else if (ev.AskSignIn? || ev.AskChange? || ev.SealAvatarOf? || ev.StartRemoval? || ev.StartRestore?)
              && ev.device in s.devices {
      BegunHolds(c, a, s.devices[ev.device], ev);
      var p := Begun(c, s.devices[ev.device], ev);
      if p.Some? {
        WaitingIsContinuous(c, a, s, ev.call, p.value);
      }
    }
  }

  lemma EachDeviceHolds(c: Suite, a: Account, s: System)
    requires Continuous(c, a, s)
    ensures forall d | d in s.devices :: DeviceHolds(a, s.devices[d])
  {
    hide ServerHolds, AvatarHolds, PendingHolds, DeviceHolds;
  }

  lemma FreshHolds(a: Account)
    ensures DeviceHolds(a, FRESH)
  {
  }

  lemma LocalKeepsDevice(c: Suite, a: Account, s: State, call: Call)
    requires DeviceHolds(a, s) && IsLocal(call)
    ensures DeviceHolds(a, Step(c, s, call).0)
  {
    hide DiscoverAndConnect;
  }

  lemma {:induction false} RunIsContinuous(c: Suite, a: Account, s: System, events: seq<Event>)
    requires Lawful(c) && Continuous(c, a, s) && CarriesSomehow(c, a, a.bundle)
    requires forall ev | ev in events :: Admissible(c, ev)
    ensures Continuous(c, a, FireAll(c, s, events))
  {
    hide Lawful, Continuous, Fire, CarriesSomehow;
    if events != [] {
      var n := |events| - 1;
      RunIsContinuous(c, a, s, events[..n]);
      assert events[n] in events;
      FireIsContinuous(c, a, FireAll(c, s, events[..n]), events[n]);
    }
  }

  // ---- Founding ----

  /** A create_owner on a connected device whose store was empty. */
  datatype Founding = Founding(
    e: FreshEntropy, password: Bytes, session: Session, deviceSecret: Bytes, inner: Inner, faults: Faults)

  /** The account it founds, if the call gets as far as its upload; the server keeps what was uploaded. */
  function AccountOf(c: Suite, f: Founding): Option<Account> {
    match OwnerUploadOf(c, State(f.inner, map[]), f.e, f.deviceSecret, f.password)
    case None => None
    case Some(upload) => Some(Account(f.e.secretKey, f.e.identity, KeyMaterialToBundle(upload.material)))
  }

  function Founded(c: Suite, f: Founding, a: Account): System {
    var owner := CreateOwner(c, State(f.inner, map[]), f.e, f.deviceSecret, f.password, Ok(f.session), f.faults).0;
    System(Server(f.password, a.bundle, []), map[0 := owner], map[], None)
  }

  lemma FoundedIsContinuous(c: Suite, f: Founding, a: Account)
    requires Lawful(c) && f.password in c.passwords && AccountOf(c, f) == Some(a)
    requires f.inner.identity == None && f.inner.secretKey == None
    ensures Continuous(c, a, Founded(c, f, a)) && CarriesSomehow(c, a, a.bundle)
  {
    hide Lawful, Carries, CreateOwner, AccountOf, DeviceHolds;
    BootstrappedHolds(c, f, a);
    OwnerHolds(c, f, a);
  }

  lemma BootstrappedHolds(c: Suite, f: Founding, a: Account)
    requires Lawful(c) && AccountOf(c, f) == Some(a)
    ensures Carries(c, a.bundle, f.password, a.secretKey, a.identity)
    ensures |a.secretKey| == SECRET_KEY_LEN && a.identity.WellSized()
  {
    LawfulInverts(c);
    hide Lawful, AeadInverts, Carries, Bootstrap;
    BootstrapCarries(c, f.e, f.password, DEFAULT_PARAMS);
    var boot := Bootstrap(c, f.e, f.password, DEFAULT_PARAMS).value;
    DrawsAreKept(c, f.e, f.password, DEFAULT_PARAMS);
    BridgeRoundTrip(boot.bundle, BundleToKeyMaterial(boot.bundle));
  }

  lemma DrawsAreKept(c: Suite, e: FreshEntropy, password: Bytes, params: KdfParams)
    ensures var r := Bootstrap(c, e, password, params);
            r.Ok? ==> r.value.secretKey == e.secretKey && r.value.identity == e.identity
  {
  }

  lemma OwnerHolds(c: Suite, f: Founding, a: Account)
    requires AccountOf(c, f) == Some(a) && f.inner.identity == None && f.inner.secretKey == None
    ensures DeviceHolds(a, Founded(c, f, a).devices[0])
  {
    hide Bootstrap, PersistWrites;
    DrawsAreKept(c, f.e, f.password, DEFAULT_PARAMS);
    var cache := ToCache(f.inner.verified.value.identityPublic, f.session.userId, f.session.token, a.identity.masterKey,
                         a.secretKey, Some(f.deviceSecret), f.inner.endpoints);
    var k := PersistOutcome(map[], cache, f.faults, 0);
  }

  // ---- Main results ----

  /** The account was founded with these draws, and the events are admissible. */
  ghost predicate LawfulRun(c: Suite, f: Founding, a: Account, events: seq<Event>) {
    && Lawful(c) && f.password in c.passwords && AccountOf(c, f) == Some(a)
    && f.inner.identity == None && f.inner.secretKey == None
    && forall ev | ev in events :: Admissible(c, ev)
  }

  /** Every reachable state keeps the invariant. */
  lemma ReachableIsContinuous(c: Suite, f: Founding, a: Account, events: seq<Event>)
    requires LawfulRun(c, f, a, events)
    ensures Continuous(c, a, FireAll(c, Founded(c, f, a), events))
  {
    hide Lawful, Continuous, FireAll, Founded, AccountOf, CarriesSomehow;
    FoundedIsContinuous(c, f, a);
    RunIsContinuous(c, a, Founded(c, f, a), events);
  }

  /** Whatever the devices do, the stored bundle opens under the server's current password and the account's
      Secret Key to the original keys, under no other pair, and its private-key wraps never change. */
  lemma BundleAlwaysOpens(c: Suite, f: Founding, a: Account, events: seq<Event>, password: Bytes, secretKey: Bytes)
    requires LawfulRun(c, f, a, events)
    requires password in c.passwords && |secretKey| == SECRET_KEY_LEN
    ensures var server := FireAll(c, Founded(c, f, a), events).server;
            && Unlock(c, server.bundle, server.password, a.secretKey) == Ok(a.identity)
            && (Unlock(c, server.bundle, password, secretKey).Ok? <==>
                password == server.password && secretKey == a.secretKey)
            && server.bundle.x25519PrivateWrapped == a.bundle.x25519PrivateWrapped
            && server.bundle.ed25519PrivateWrapped == a.bundle.ed25519PrivateWrapped
  {
    hide Lawful, Carries, Unlock, Fire, Founded;
    ReachableIsContinuous(c, f, a, events);
    var server := FireAll(c, Founded(c, f, a), events).server;
    UnlockFixesBothFactors(c, server.bundle, server.password, a.secretKey, a.identity, password, secretKey);
  }

  /** Whatever master key a device cached at any point of a run opens the image the server serves at any later point:
      get_avatar answers the latest uploaded image, the empty one included, or None if there is none yet. */
  lemma EveryDeviceOpensTheAvatar(c: Suite, f: Founding, a: Account, events: seq<Event>, read: nat, device: nat)
    requires LawfulRun(c, f, a, events) && read <= |events|
    ensures var then', now := FireAll(c, Founded(c, f, a), events[..read]), FireAll(c, Founded(c, f, a), events);
            device in then'.devices && MasterKey in then'.devices[device].vault ==>
              var master := CachedMasterKey(then'.devices[device], false);
              master.Ok? && OpenAvatar(c, master.value, Ok(now.server.avatar)) == Ok(now.lastAvatar)
  {
    hide FireAll, Founded, AccountOf, Lawful, ServerHolds, IsSealed, Open, Admissible;
    ReachableIsContinuous(c, f, a, events);
    ReachableIsContinuous(c, f, a, events[..read]);
    var now := FireAll(c, Founded(c, f, a), events);
    if now.lastAvatar.Some? {
      AvatarOpens(c, a.identity.masterKey, now.lastAvatar.value, now.server.avatar);
    }
  }

  /** So the whole answer of an undisturbed get_avatar, in any reachable state. */
  lemma GetAvatarAnswers(c: Suite, f: Founding, a: Account, events: seq<Event>, device: nat, faults: Faults)
    requires LawfulRun(c, f, a, events)
    ensures var s := FireAll(c, Founded(c, f, a), events);
            device in s.devices ==>
              GetAvatar(c, s.devices[device], Ok(s.server.avatar), faults) ==
              if faults(0) then Err(StorageFailed)
              else if MasterKey !in s.devices[device].vault || s.devices[device].inner.session.None?
              then Err(NotSignedIn)
              else Ok(s.lastAvatar)
  {
    hide FireAll, Founded, LawfulRun, OpenAvatar;
    EveryDeviceOpensTheAvatar(c, f, a, events, |events|, device);
    assert events[..|events|] == events;
  }

  /** A sealed blob is never the empty answer that means "unset". */
  lemma AvatarOpens(c: Suite, masterKey: Bytes, png: Bytes, blob: Bytes)
    requires Lawful(c) && |masterKey| == KEY_LEN && IsSealed(c, masterKey, png, blob)
    ensures blob != [] && Open(c, masterKey, blob) == Ok(png)
  {
    SealedOpensUnderItsKeyOnly(c, masterKey, png, blob, masterKey);
  }

  predicate CanReturn(s: State) {
    SecretKey in s.vault && s.inner.channel.Some? && s.inner.verified.Some?
  }

  /** With the current password the sign-in caches the account's master key; with any other it changes nothing. */
  predicate ReturnsTo(a: Account, s: State, right: bool, session: Session, d: State,
                      r: Result<SignInOutcome, ClientError>)
  {
    if right then
      && r == Ok(Success(session.userId))
      && d.inner.identity == Some(a.identity) && MasterKey in d.vault && d.vault[MasterKey] == Raw(a.identity.masterKey)
    else r == Err(CryptoRefused) && d == s
  }

  /** A returning device needs no Secret Key typed: at any point of any run, connected and with its key cached,
      it signs in with the account's current password, whoever set it, and then caches the same master key. */
  lemma ReturningSignIn(c: Suite, f: Founding, a: Account, events: seq<Event>, device: nat, session: Session,
                        password: Bytes, faults: Faults)
    requires LawfulRun(c, f, a, events) && password in c.passwords && forall i :: !faults(i)
    ensures var s := FireAll(c, Founded(c, f, a), events);
            device in s.devices && CanReturn(s.devices[device]) ==>
              var (d, r) := SignIn(c, s.devices[device], password, None, Ok(SessionGranted(session)),
                                   Ok(BundleToKeyMaterial(s.server.bundle)), faults);
              ReturnsTo(a, s.devices[device], password == s.server.password, session, d, r)
  {
    hide *;
    ReachableDevice(c, f, a, events, device);
    var s := FireAll(c, Founded(c, f, a), events);
    if device in s.devices && CanReturn(s.devices[device]) {
      ReturningSignInAt(c, a, s.devices[device], s.server.password, s.server.bundle, session, password, faults);
    }
  }

  lemma ReachableDevice(c: Suite, f: Founding, a: Account, events: seq<Event>, device: nat)
    requires LawfulRun(c, f, a, events)
    ensures var s := FireAll(c, Founded(c, f, a), events);
            && Lawful(c) && |a.secretKey| == SECRET_KEY_LEN && a.identity.WellSized()
            && ServerHolds(c, a, s.server.password, s.server.bundle)
            && (device in s.devices ==> DeviceHolds(a, s.devices[device]))
  {
    hide Lawful, FireAll, Founded, AccountOf, ServerHolds, DeviceHolds;
    ReachableIsContinuous(c, f, a, events);
  }

  lemma ReturningSignInAt(c: Suite, a: Account, s: State, wrapped: Bytes, bundle: KeyBundle, session: Session,
                          password: Bytes, faults: Faults)
    requires Lawful(c) && |a.secretKey| == SECRET_KEY_LEN && DeviceHolds(a, s) && ServerHolds(c, a, wrapped, bundle)
    requires password in c.passwords && forall i :: !faults(i)
    requires CanReturn(s)
    ensures var (d, r) := SignIn(c, s, password, None, Ok(SessionGranted(session)),
                                 Ok(BundleToKeyMaterial(bundle)), faults);
            ReturnsTo(a, s, password == wrapped, session, d, r)
  {
    hide Lawful, Carries, Login, PersistWrites;
    var material := BundleToKeyMaterial(bundle);
    BridgeRoundTrip(bundle, material);
    LoginExactly(c, a, session, material, wrapped, password, a.secretKey);
    if password == wrapped {
      var k := PersistOutcome(s.vault, ToCache(s.inner.verified.value.identityPublic, session.userId, session.token,
                                               a.identity.masterKey, a.secretKey, None, s.inner.endpoints), faults, 1);
    }
  }
}
