/** Whole runs of one client whose calls come one at a time. Every store operation may be refused, every network
    answer is arbitrary, and the process may restart between calls; a crash in the middle of a call leaves
    what a refusal at that point followed by a restart leaves. */
module ClientRuns {
  import opened Common
  import opened Primitives
  import opened Crypto
  import opened Discovery
  import opened Storage
  import opened Transport
  import opened Flows
  import opened ClientSpec

  datatype Call =
    | CallConnect(host: string, port: Port, net: Network, nonce: Bytes, faults: Faults)
    | CallCreateOwner(e: FreshEntropy, deviceSecret: Bytes, password: Bytes, created: Result<Session, RpcError>,
                      faults: Faults)
    | CallSignIn(password: Bytes, typed: Option<string>, login: Result<LoginOutcome, RpcError>,
                 material: Result<KeyMaterial, RpcError>, faults: Faults)
    | CallEnroll(deviceSecret: Bytes, answer: Result<(), RpcError>, faults: Faults)
    | CallChangePassword(current: Bytes, newPassword: Bytes, material: Result<KeyMaterial, RpcError>, salt: Bytes,
                         nonce: Bytes, answer: Result<(), RpcError>, faults: Faults)
    | CallGetAvatar(avatar: Result<Bytes, RpcError>, faults: Faults)
    | CallSetAvatar(png: Bytes, nonce: Bytes, answer: Result<(), RpcError>, faults: Faults)
    | CallSignOut(faults: Faults)
    | CallForget(faults: Faults)
    | CallRestore(net: Network, nonce: Bytes, faults: Faults)
    | Restart

  datatype Outcome =
    | Connected(info: Result<ConnectInfo, ClientError>)
    | Created(enrollment: Result<Enrollment, ClientError>)
    | SignedIn(signIn: Result<SignInOutcome, ClientError>)
    | Restored(user: Result<Option<string>, ClientError>)
    | Avatar(png: Result<Option<Bytes>, ClientError>)
    | Done(result: Result<(), ClientError>)

  function Step(c: Suite, s: State, call: Call): (State, Outcome) {
    match call
    case CallConnect(host, port, net, nonce, faults) =>
      var (s', r) := Connect(c, s, host, port, net, nonce, faults); (s', Connected(r))
    case CallCreateOwner(e, device, password, created, faults) =>
      var (s', r) := CreateOwner(c, s, e, device, password, created, faults); (s', Created(r))
    case CallSignIn(password, typed, login, material, faults) =>
      var (s', r) := SignIn(c, s, password, typed, login, material, faults); (s', SignedIn(r))
    case CallEnroll(device, answer, faults) => var (s', r) := EnrollDevice(s, device, answer, faults); (s', Done(r))
    case CallChangePassword(current, new', material, salt, nonce, answer, faults) =>
      (s, Done(ChangePassword(c, s, current, new', material, salt, nonce, answer, faults)))
    case CallGetAvatar(avatar, faults) => (s, Avatar(GetAvatar(c, s, avatar, faults)))
    case CallSetAvatar(png, nonce, answer, faults) =>
      (s, Done(SetAvatar(c, s, png, nonce, answer, faults)))
    case CallSignOut(faults) => var (s', r) := SignOut(s, faults); (s', Done(r))
    case CallForget(faults) => var (s', r) := ForgetServer(s, faults); (s', Done(r))
    case CallRestore(net, nonce, faults) => var (s', r) := Restore(c, s, net, nonce, faults); (s', Restored(r))
    case Restart => (s.(inner := INNER_DEFAULT), Done(Ok(())))
  }

  ghost predicate NothingRefused(call: Call) {
    call.Restart? || forall i :: !call.faults(i)
  }

  function Run(c: Suite, s: State, calls: seq<Call>): State {
    if calls == [] then s else Step(c, Run(c, s, calls[..|calls| - 1]), calls[|calls| - 1]).0
  }

  const FRESH: State := State(INNER_DEFAULT, map[])

  // ---- What the vault looks like after a partial call ----

  /** The vault after the first k writes of a persist. */
  function Written(v: Entries, d: ToCache, k: nat): Entries {
    var v1 := if k >= 1 then v[MasterKey := Raw(d.masterKey)] else v;
    var v2 := if k >= 2 then v1[SecretKey := Raw(d.secretKey)] else v1;
    var v3 := if k >= 3 then v2[SessionToken := Text(d.token)] else v2;
    var v4 := if k >= 4 && d.deviceSecret.Some? then v3[DeviceSecret := Raw(d.deviceSecret.value)] else v3;
    if k >= 5 then v4[Profile := Json(ProfileOf(d))] else v4
  }

  lemma WriteStep(v: Entries, writes: seq<(Entry, Blob)>, i: nat, faults: Faults, at: nat)
    requires i < |writes|
    ensures WriteAll(v, writes[i..], faults, at) ==
            if faults(at) then (v, false) else WriteAll(v[writes[i].0 := writes[i].1], writes[i + 1..], faults, at + 1)
  {
    assert writes[i..][1..] == writes[i + 1..];
  }

  /** The token is the third write. */
  predicate TokenWritten(faults: Faults, at: nat) { !faults(at) && !faults(at + 1) && !faults(at + 2) }

  /** A persist leaves a prefix of its writes behind, all of them exactly when it reports success. */
  lemma PersistOutcome(v: Entries, d: ToCache, faults: Faults, at: nat) returns (k: nat)
    ensures k <= 5
    ensures WriteAll(v, PersistWrites(d), faults, at) == (Written(v, d, k), k == 5)
    ensures (forall i :: !faults(i)) ==> k == 5
    ensures (k >= 1 <==> !faults(at)) && (k >= 3 <==> TokenWritten(faults, at))
    ensures k == 5 <==> forall i | at <= i < at + |PersistWrites(d)| :: !faults(i)
  {
    var w := PersistWrites(d);
    var n := |w|;
    assert w[0..] == w && w[n..] == [];
    WriteStep(v, w, 0, faults, at);
    WriteStep(Written(v, d, 1), w, 1, faults, at + 1);
    WriteStep(Written(v, d, 2), w, 2, faults, at + 2);
    WriteStep(Written(v, d, 3), w, 3, faults, at + 3);
    if n == 5 {
      WriteStep(Written(v, d, 4), w, 4, faults, at + 4);
    }
    if faults(at) { k := 0; }
    else if faults(at + 1) { k := 1; }
    else if faults(at + 2) { k := 2; }
    else if faults(at + 3) { k := 3; }
    else if n == 5 && faults(at + 4) { k := 4; }
    else { k := 5; }
  }

  /** The vault after the first k deletions of a full wipe. */
  function Wiped(v: Entries, k: nat): Entries {
    if k == 0 then v
    else if k == 1 then v - {MasterKey}
    else if k == 2 then v - {MasterKey, SecretKey}
    else if k == 3 then v - {MasterKey, SecretKey, DeviceSecret}
    else if k == 4 then v - {MasterKey, SecretKey, DeviceSecret, SessionToken}
    else map[]
  }

  lemma ClearOutcome(v: Entries, faults: Faults) returns (k: nat)
    ensures k <= 5 && (forall i: nat | i < k :: !faults(i)) && (k < 5 ==> faults(k))
    ensures DeleteAll(v, CLEAR_ORDER, faults, 0) == (Wiped(v, k), k == 5)
  {
    var o := CLEAR_ORDER;
    assert o[1..][1..] == o[2..] && o[2..][1..] == o[3..] && o[3..][1..] == o[4..] && o[4..][1..] == [];
    assert v - {MasterKey} - {SecretKey} == Wiped(v, 2);
    assert Wiped(v, 2) - {DeviceSecret} == Wiped(v, 3);
    assert Wiped(v, 3) - {SessionToken} == Wiped(v, 4);
    var last := Wiped(v, 4) - {Profile};
    assert last == map[] by {
      forall e: Entry ensures e !in last {
        assert e == MasterKey || e == SecretKey || e == DeviceSecret || e == SessionToken || e == Profile;
      }
    }
    if faults(0) { k := 0; }
    else if faults(1) { k := 1; }
    else if faults(2) { k := 2; }
    else if faults(3) { k := 3; }
    else if faults(4) { k := 4; }
    else { k := 5; }
  }

  lemma ClearSessionOutcome(v: Entries, faults: Faults)
    ensures DeleteAll(v, CLEAR_SESSION_ORDER, faults, 0) ==
            if faults(0) then (v, false)
            else if faults(1) then (v - {SessionToken}, false)
            else (v - {SessionToken} - {MasterKey}, true)
  {
    var o := CLEAR_SESSION_ORDER;
    assert o[1..] == [MasterKey] && o[1..][1..] == [];
  }

  // ---- The pin never moves ----

  function Pin(s: State): Option<Bytes> { StoredPin(s.vault) }

  /** Every entry has the form its reader expects, so no read is ever Malformed. */
  predicate WellFormed(v: Entries) {
    && (MasterKey in v ==> v[MasterKey].Raw? && |v[MasterKey].bytes| == 32)
    && (SecretKey in v ==> v[SecretKey].Raw? && |v[SecretKey].bytes| == 20)
    && (SessionToken in v ==> v[SessionToken].Text?)
    && (Profile in v ==> v[Profile].Json? && v[Profile].profile.endpoints != [])
  }

  /** The channel, the verified server and its endpoint go together; a session implies them and a stored profile;
      the stored pin and the verified server name the same identity. */
  predicate Consistent(s: State) {
    && WellFormed(s.vault)
    && (s.inner.channel.Some? <==> s.inner.verified.Some?)
    && (s.inner.verified.Some? <==> s.inner.endpoints != [])
    && (s.inner.session.Some? ==> s.inner.channel.Some? && Profile in s.vault)
    && (s.inner.verified.Some? && Profile in s.vault ==>
          s.inner.verified.value.identityPublic == s.vault[Profile].profile.identityPublic)
  }

  predicate ForgetSucceeds(c: Suite, s: State, call: Call) {
    call.CallForget? && Step(c, s, call).1 == Done(Ok(()))
  }

  lemma ForgetStep(c: Suite, s: State, faults: Faults)
    requires Consistent(s)
    ensures var s' := ForgetServer(s, faults).0;
            && Consistent(s')
            && (ForgetServer(s, faults).1.Ok? ==> s' == FRESH)
            && (ForgetServer(s, faults).1.Err? ==> Pin(s') == Pin(s))
  {
    var k := ClearOutcome(s.vault, faults);
  }

  lemma SignOutStep(s: State, faults: Faults)
    requires Consistent(s)
    ensures Consistent(SignOut(s, faults).0) && Pin(SignOut(s, faults).0) == Pin(s)
  {
    ClearSessionOutcome(s.vault, faults);
  }

  lemma PersistStep(s: State, d: ToCache, k: nat)
    requires Consistent(s) && s.inner.verified.Some?
    requires d.identityPublic == s.inner.verified.value.identityPublic && d.endpoints == s.inner.endpoints
    requires |d.masterKey| == 32 && |d.secretKey| == 20
    ensures Consistent(s.(vault := Written(s.vault, d, k)))
    ensures k >= 5 ==> Profile in Written(s.vault, d, k)
    ensures Pin(s).Some? ==> Pin(s.(vault := Written(s.vault, d, k))) == Pin(s)
  {
  }

  lemma CreateOwnerStep(c: Suite, s: State, e: FreshEntropy, device: Bytes, password: Bytes,
                        created: Result<Session, RpcError>, faults: Faults)
    requires Consistent(s)
    ensures var s' := CreateOwner(c, s, e, device, password, created, faults).0;
            Consistent(s') && (Pin(s).Some? ==> Pin(s') == Pin(s))
  {
    var enrolled := EnrollNewOwner(c, e, password, DEFAULT_PARAMS, created);
    if s.inner.channel.Some? && enrolled.Ok? {
      var d := ToCache(s.inner.verified.value.identityPublic, enrolled.value.userId, enrolled.value.token,
                       enrolled.value.identity.masterKey, enrolled.value.secretKey, Some(device), s.inner.endpoints);
      var k := PersistOutcome(s.vault, d, faults, 0);
      PersistStep(s, d, k);
    }
  }

  lemma SignInStep(c: Suite, s: State, password: Bytes, typed: Option<string>, login: Result<LoginOutcome, RpcError>,
                   material: Result<KeyMaterial, RpcError>, faults: Faults)
    requires Consistent(s)
    ensures var s' := SignIn(c, s, password, typed, login, material, faults).0;
            Consistent(s') && (Pin(s).Some? ==> Pin(s') == Pin(s))
  {
    hide ResolveSecretKey, Login, PersistWrites, WriteAll;
    var resolved := ResolveSecretKey(s, typed, faults(0));
    if resolved.Ok? && s.inner.channel.Some? {
      var loggedIn := Login(c, login, material, password, resolved.value);
      if loggedIn.Ok? {
        var d := ToCache(s.inner.verified.value.identityPublic, loggedIn.value.userId, loggedIn.value.token,
                         loggedIn.value.identity.masterKey, resolved.value, None, s.inner.endpoints);
        var k := PersistOutcome(s.vault, d, faults, 1);
        PersistStep(s, d, k);
      }
    }
  }

  /** Every call keeps the invariant, and every call but a successful forget keeps a stored pin. */
  lemma StepKeepsPin(c: Suite, s: State, call: Call)
    requires Consistent(s)
    ensures Consistent(Step(c, s, call).0)
    ensures Pin(s).Some? && !ForgetSucceeds(c, s, call) ==> Pin(Step(c, s, call).0) == Pin(s)
    ensures ForgetSucceeds(c, s, call) ==> Step(c, s, call).0 == FRESH
  {
    hide CreateOwner, SignIn, SignOut, ChangePassword, GetAvatar, SealAvatar;
    match call
    case CallCreateOwner(e, device, password, created, faults) =>
      CreateOwnerStep(c, s, e, device, password, created, faults);
    case CallSignIn(password, typed, login, material, faults) =>
      SignInStep(c, s, password, typed, login, material, faults);
    case CallSignOut(faults) => SignOutStep(s, faults);
    case CallForget(faults) => ForgetStep(c, s, faults);
    case _ =>
  }

  /** The error a call answered, if any. */
  function ErrorOf(outcome: Outcome): Option<ClientError> {
    match outcome
    case Connected(Err(e)) => Some(e)
    case Created(Err(e)) => Some(e)
    case SignedIn(Err(e)) => Some(e)
    case Restored(Err(e)) => Some(e)
    case Avatar(Err(e)) => Some(e)
    case Done(Err(e)) => Some(e)
    case _ => None
  }

  /** A failed call leaves the memory as it was, and the vault too unless the store itself refused. */
  lemma FailuresChangeNothing(c: Suite, s: State, call: Call)
    ensures var (s', outcome) := Step(c, s, call);
            && (ErrorOf(outcome).Some? ==> s'.inner == s.inner)
            && (ErrorOf(outcome).Some? && ErrorOf(outcome) != Some(StorageFailed) ==> s' == s)
  {
    hide DiscoverAndConnect, EnrollNewOwner, Login, ResolveSecretKey, PersistWrites, WriteAll, DeleteAll,
         ChangePassword, GetAvatar, SetAvatar;
  }

  /** The server that answers discovery at exactly this place, if its answer to this nonce verifies. */
  function Proven(c: Suite, net: Network, nonce: Bytes, host: string, port: Port): Option<VerifiedServer> {
    if net.fetch(host, port).Some? && VerifyDiscovery(c, net.fetch(host, port).value, nonce).Ok?
    then Some(VerifyDiscovery(c, net.fetch(host, port).value, nonce).value)
    else None
  }

  predicate NoForgetSucceeds(c: Suite, s: State, calls: seq<Call>) {
    forall i | 0 <= i < |calls| :: !ForgetSucceeds(c, Run(c, s, calls[..i]), calls[i])
  }

  lemma {:induction false} RunIsConsistent(c: Suite, s: State, calls: seq<Call>)
    requires Consistent(s)
    ensures Consistent(Run(c, s, calls))
  {
    if calls != [] {
      var n := |calls| - 1;
      RunIsConsistent(c, s, calls[..n]);
      StepKeepsPin(c, Run(c, s, calls[..n]), calls[n]);
    }
  }

  /** Trust on first use: from any consistent state, in any run, a stored identity key stays what it is until a
      forget_server goes through. */
  lemma {:induction false} PinStable(c: Suite, s: State, calls: seq<Call>)
    requires Consistent(s) && Pin(s).Some? && NoForgetSucceeds(c, s, calls)
    ensures Pin(Run(c, s, calls)) == Pin(s)
  {
    if calls != [] {
      var n := |calls| - 1;
      var before := calls[..n];
      assert forall i | 0 <= i < n :: before[..i] == calls[..i];
      PinStable(c, s, before);
      RunIsConsistent(c, s, before);
      StepKeepsPin(c, Run(c, s, before), calls[n]);
    }
  }

  /** A connected client with a stored profile is connected to the pinned identity, in every run of a fresh install. */
  lemma ConnectedMeansPinned(c: Suite, calls: seq<Call>)
    ensures var s := Run(c, FRESH, calls);
            s.inner.verified.Some? && Profile in s.vault ==> Pin(s) == Some(s.inner.verified.value.identityPublic)
    ensures var s := Run(c, FRESH, calls); s.inner.session.Some? ==> Pin(s).Some? && s.inner.verified.Some?
  {
    RunIsConsistent(c, FRESH, calls);
  }
}
