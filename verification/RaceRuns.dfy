/** Runs of single calls in the race: one write after the other, a create_owner, a sign_in. Undisturbed, they do what
    `ClientSpec` says. */
module RaceRuns {
  import opened Common
  import opened Primitives
  import opened Crypto
  import opened Storage
  import opened Transport
  import opened Discovery
  import opened Endpoint
  import opened Flows
  import opened ClientSpec
  import opened PersistRace

  lemma {:induction false} FireInTurn(s: Race, first: seq<Event>, then': seq<Event>)
    ensures FireAll(s, first + then') == FireAll(FireAll(s, first), then')
    decreases |then'|
  {
    hide Fire;
    if then' == [] {
      assert first + then' == first;
    } else {
      var n := |then'| - 1;
      FireInTurn(s, first, then'[..n]);
      assert (first + then')[..|first| + n] == first + then'[..n];
    }
  }

  lemma FireOnce(s: Race, ev: Event)
    ensures FireAll(s, [ev]) == Fire(s, ev)
  {
    assert FireAll(s, [ev][..0]) == s;
  }

  lemma FireThrice(s: Race, e1: Event, e2: Event, e3: Event)
    ensures FireAll(s, [e1, e2, e3]) == Fire(Fire(Fire(s, e1), e2), e3)
  {
    hide Fire;
    FireOnce(s, e1);
    FireInTurn(s, [e1], [e2]);
    FireOnce(Fire(s, e1), e2);
    assert [e1] + [e2] == [e1, e2];
    FireInTurn(s, [e1, e2], [e3]);
    FireOnce(Fire(Fire(s, e1), e2), e3);
    assert [e1, e2] + [e3] == [e1, e2, e3];
  }

  /** The next k writes of a persist. */
  function Writes(t: nat, k: nat): seq<Event> { seq(k, _ => WriteNext(t)) }

  lemma {:induction false} WritesFire(s: Race, t: nat, k: nat)
    requires t in s.threads && s.threads[t].Persisting?
    requires s.threads[t].written + k <= |PersistWrites(s.threads[t].login.cache)|
    ensures var s', Persisting(login, w) := FireAll(s, Writes(t, k)), s.threads[t];
            && s'.threads == s.threads[t := Persisting(login, w + k)]
            && s'.lock == s.lock && s'.last == s.last && s'.inner == s.inner
            && s'.cut == s.cut.(key := s.cut.key && !(w <= 0 < w + k), token := s.cut.token && !(w <= 2 < w + k))
  {
    hide Fire, PersistWrites;
    if k > 0 {
      WritesFire(s, t, k - 1);
      assert Writes(t, k)[..k - 1] == Writes(t, k - 1);
      var before := FireAll(s, Writes(t, k - 1));
      WhichWrite(s.threads[t].login.cache, s.threads[t].written + k - 1);
      OneWrite(before, t);
    }
  }

  lemma OneWrite(s: Race, t: nat)
    requires t in s.threads && s.threads[t].Persisting?
    ensures Fire(s, WriteNext(t)) == WriteOne(s, t, s.threads[t].login, s.threads[t].written)
  {
  }

  lemma CommitFires(s: Race, t: nat)
    requires t in s.threads && s.threads[t].Persisting?
    ensures Fire(s, Commit(t)) == Finish(s, t, s.threads[t].login, s.threads[t].written)
  {
    hide PersistWrites;
  }

  /** A create_owner up to its first write. */
  lemma OwnerBegins(s: Race, t: nat, user: string, token: string, identity: Identity, key: Bytes, device: Bytes)
    requires s.lock == None && t !in s.threads && s.inner.channel.Some? && s.inner.verified.Some?
    ensures var cache := ToCache(s.inner.verified.value.identityPublic, user, token, identity.masterKey, key,
                                 Some(device), s.inner.endpoints);
            FireAll(s, [Start(t), Acquire(t), OwnerCreated(t, user, token, identity, key, device)]) ==
            s.(lock := Some(t), threads := s.threads[t := Persisting(LoginResult(cache, identity), 0)])
  {
    var owner := OwnerCreated(t, user, token, identity, key, device);
    assert Fire(s, Start(t)) == Move(s, t, Starting);
    var s1 := Move(s, t, Starting);
    AcquireFires(s1, t);
    var s2 := Fire(s1, Acquire(t));
    OwnerFires(s2, t, user, token, identity, key, device);
    hide Fire, FireAll;
    FireThrice(s, Start(t), Acquire(t), owner);
    assert s2 == s.(lock := Some(t), threads := s.threads[t := Holding(None)]);
  }

  lemma AcquireFires(s: Race, t: nat)
    requires t in s.threads && s.lock == None
    ensures s.threads[t].Starting? ==> Fire(s, Acquire(t)) == Move(s, t, Holding(None)).(lock := Some(t))
    ensures s.threads[t].Resolved? ==>
              Fire(s, Acquire(t)) == Move(s, t, Holding(Some(s.threads[t].key))).(lock := Some(t))
  {
    hide PersistWrites;
  }

  lemma OwnerFires(s: Race, t: nat, user: string, token: string, identity: Identity, key: Bytes, device: Bytes)
    requires t in s.threads && s.threads[t] == Holding(None)
    ensures Fire(s, OwnerCreated(t, user, token, identity, key, device)) ==
            BeginPersist(s, t, user, token, identity, key, Some(device))
  {
    hide PersistWrites, BeginPersist;
  }

  /** Writes made one by one are the writes of a persist that nothing refuses. */
  lemma {:induction false} WritesAreWriteAll(s: Race, t: nat, k: nat, faults: Faults, at: nat)
    requires t in s.threads && s.threads[t].Persisting? && forall i :: !faults(i)
    requires s.threads[t].written + k <= |PersistWrites(s.threads[t].login.cache)|
    ensures var w, writes := s.threads[t].written, PersistWrites(s.threads[t].login.cache);
            WriteAll(s.vault, writes[w..], faults, at) ==
            WriteAll(FireAll(s, Writes(t, k)).vault, writes[w + k..], faults, at + k)
  {
    hide Fire, PersistWrites;
    if k > 0 {
      WritesAreWriteAll(s, t, k - 1, faults, at);
      WritesFire(s, t, k - 1);
      assert Writes(t, k)[..k - 1] == Writes(t, k - 1);
      OneWrite(FireAll(s, Writes(t, k - 1)), t);
      var writes := PersistWrites(s.threads[t].login.cache);
      assert writes[s.threads[t].written + k - 1..][1..] == writes[s.threads[t].written + k..];
    }
  }

  lemma LoginCompletes(s: Race, t: nat, faults: Faults, at: nat)
    requires t in s.threads && s.threads[t].Persisting? && s.threads[t].written == 0 && s.inner.channel.Some?
    requires forall i :: !faults(i)
    ensures var login := s.threads[t].login;
            var s' := FireAll(s, Writes(t, |PersistWrites(login.cache)|) + [Commit(t)]);
            && s'.lock == None && s'.last == Some(login) && s'.threads == s.threads[t := Returned]
            && s'.inner == s.inner.(session := Some(AccountSession(s.inner.channel.value, login.cache.token)),
                                    identity := Some(login.identity), secretKey := Some(login.cache.secretKey))
            && (s'.vault, true) == WriteAll(s.vault, PersistWrites(login.cache), faults, at)
  {
    hide Fire, FireAll, PersistWrites;
    var writes := PersistWrites(s.threads[t].login.cache);
    var n := |writes|;
    WritesFire(s, t, n);
    WritesAreWriteAll(s, t, n, faults, at);
    assert writes[0..] == writes && writes[n..] == [];
    FireInTurn(s, Writes(t, n), [Commit(t)]);
    var s1 := FireAll(s, Writes(t, n));
    FireOnce(s1, Commit(t));
    CommitFires(s1, t);
  }

  /** The key that resolves a sign-in: typed, or cached. */
  predicate Resolves(s: Race, typed: Option<Bytes>, key: Bytes) {
    typed == Some(key) || (typed == None && ReadSecretKey(s.vault, false) == Ok(Some(key)))
  }

  /** A sign-in up to its first write. */
  lemma SignInBegins(s: Race, t: nat, user: string, token: string, identity: Identity, typed: Option<Bytes>, key: Bytes)
    requires s.lock == None && t !in s.threads && s.inner.channel.Some? && s.inner.verified.Some?
    requires Resolves(s, typed, key)
    ensures var cache := ToCache(s.inner.verified.value.identityPublic, user, token, identity.masterKey, key, None,
                                 s.inner.endpoints);
            FireAll(s, [Start(t), ResolveKey(t, typed), Acquire(t)] + [LoginGranted(t, user, token, identity)]) ==
            s.(lock := Some(t), threads := s.threads[t := Persisting(LoginResult(cache, identity), 0)])
  {
    hide Fire, FireAll, Resolves;
    var s1, s2 := Move(s, t, Starting), Move(s, t, Resolved(key));
    ResolveFires(s, t, typed, key);
    AcquireFires(s2, t);
    var s3 := Fire(s2, Acquire(t));
    assert s3 == s.(lock := Some(t), threads := s.threads[t := Holding(Some(key))]);
    LoginFires(s3, t, user, token, identity, key);
    FireThrice(s, Start(t), ResolveKey(t, typed), Acquire(t));
    FireInTurn(s, [Start(t), ResolveKey(t, typed), Acquire(t)], [LoginGranted(t, user, token, identity)]);
    FireOnce(s3, LoginGranted(t, user, token, identity));
  }

  lemma ResolveFires(s: Race, t: nat, typed: Option<Bytes>, key: Bytes)
    requires t !in s.threads && Resolves(s, typed, key)
    ensures Fire(s, Start(t)) == Move(s, t, Starting)
    ensures Fire(Move(s, t, Starting), ResolveKey(t, typed)) == Move(s, t, Resolved(key))
  {
    hide PersistWrites, ReadSecretKey;
    assert s.threads[t := Starting][t := Resolved(key)] == s.threads[t := Resolved(key)];
  }

  lemma LoginFires(s: Race, t: nat, user: string, token: string, identity: Identity, key: Bytes)
    requires t in s.threads && s.threads[t] == Holding(Some(key))
    ensures Fire(s, LoginGranted(t, user, token, identity)) == BeginPersist(s, t, user, token, identity, key, None)
  {
    hide PersistWrites, BeginPersist;
  }

  /** A create_owner from start to end, undisturbed: the step of `ClientSpec`. */
  lemma LoneCreateOwner(c: Suite, s: Race, t: nat, e: FreshEntropy, deviceSecret: Bytes, password: Bytes,
                        answer: Result<Session, RpcError>, faults: Faults)
    returns (events: seq<Event>)
    requires s.lock == None && t !in s.threads && s.inner.channel.Some? && s.inner.verified.Some?
    requires EnrollNewOwner(c, e, password, DEFAULT_PARAMS, answer).Ok? && forall i :: !faults(i)
    ensures var s' := FireAll(s, events);
            && State(s'.inner, s'.vault) ==
               CreateOwner(c, State(s.inner, s.vault), e, deviceSecret, password, answer, faults).0
            && s'.lock == None && s'.last.Some? && s'.threads == s.threads[t := Returned]
  {
    hide Fire, FireAll, PersistWrites, EnrollNewOwner, WriteAll;
    var enrolled := EnrollNewOwner(c, e, password, DEFAULT_PARAMS, answer).value;
    events := OwnerRun(s, t, enrolled.userId, enrolled.token, enrolled.identity, enrolled.secretKey,
                       deviceSecret, faults);
  }

  lemma OwnerRun(s: Race, t: nat, user: string, token: string, identity: Identity, key: Bytes, device: Bytes,
                 faults: Faults)
    returns (events: seq<Event>)
    requires s.lock == None && t !in s.threads && s.inner.channel.Some? && s.inner.verified.Some?
    requires forall i :: !faults(i)
    ensures var s' := FireAll(s, events);
            var cache := ToCache(s.inner.verified.value.identityPublic, user, token, identity.masterKey, key,
                                 Some(device), s.inner.endpoints);
            && s'.lock == None && s'.threads == s.threads[t := Returned]
            && s'.last == Some(LoginResult(cache, identity))
            && s'.inner == s.inner.(session := Some(AccountSession(s.inner.channel.value, token)),
                                    identity := Some(identity), secretKey := Some(key))
            && (s'.vault, true) == WriteAll(s.vault, PersistWrites(cache), faults, 0)
  {
    hide Fire, FireAll, PersistWrites, WriteAll;
    var begin := [Start(t), Acquire(t), OwnerCreated(t, user, token, identity, key, device)];
    OwnerBegins(s, t, user, token, identity, key, device);
    var s1 := FireAll(s, begin);
    LoginCompletes(s1, t, faults, 0);
    var complete := Writes(t, |PersistWrites(s1.threads[t].login.cache)|) + [Commit(t)];
    FireInTurn(s, begin, complete);
    events := begin + complete;
  }

  /** A sign_in from start to end, undisturbed: the step of `ClientSpec`. */
  lemma LoneSignIn(c: Suite, s: Race, t: nat, password: Bytes, typed: Option<string>,
                   login: Result<LoginOutcome, RpcError>, material: Result<KeyMaterial, RpcError>, faults: Faults)
    returns (events: seq<Event>)
    requires s.lock == None && t !in s.threads && s.inner.channel.Some? && s.inner.verified.Some?
    requires ResolveSecretKey(State(s.inner, s.vault), typed, false).Ok? && forall i :: !faults(i)
    requires var key := ResolveSecretKey(State(s.inner, s.vault), typed, false).value;
             Login(c, login, material, password, key).Ok?
    ensures var s' := FireAll(s, events);
            && State(s'.inner, s'.vault) ==
               SignIn(c, State(s.inner, s.vault), password, typed, login, material, faults).0
            && |events| > 1
            && events[1] == ResolveKey(t, if typed.None? then None else SecretKeyCodec.Parse(typed.value).ToOption())
            && s'.lock == None && s'.last.Some? && s'.threads == s.threads[t := Returned]
  {
    hide Fire, FireAll, PersistWrites, Login, WriteAll, ResolveSecretKey;
    var key := ResolveSecretKey(State(s.inner, s.vault), typed, false).value;
    var loggedIn := Login(c, login, material, password, key).value;
    var resolve := if typed.None? then None else Some(key);
    ResolvesLikeClient(s, typed, key);
    events := SignInRun(s, t, loggedIn.userId, loggedIn.token, loggedIn.identity, resolve, key, faults);
  }

  lemma ResolvesLikeClient(s: Race, typed: Option<string>, key: Bytes)
    requires ResolveSecretKey(State(s.inner, s.vault), typed, false) == Ok(key)
    ensures Resolves(s, if typed.None? then None else Some(key), key)
    ensures typed.Some? ==> SecretKeyCodec.Parse(typed.value).ToOption() == Some(key)
  {
  }

  lemma SignInRun(s: Race, t: nat, user: string, token: string, identity: Identity, typed: Option<Bytes>, key: Bytes,
                  faults: Faults)
    returns (events: seq<Event>)
    requires s.lock == None && t !in s.threads && s.inner.channel.Some? && s.inner.verified.Some?
    requires Resolves(s, typed, key) && forall i :: !faults(i)
    ensures var s' := FireAll(s, events);
            var cache := ToCache(s.inner.verified.value.identityPublic, user, token, identity.masterKey, key, None,
                                 s.inner.endpoints);
            && |events| > 1 && events[1] == ResolveKey(t, typed)
            && s'.lock == None && s'.threads == s.threads[t := Returned]
            && s'.last == Some(LoginResult(cache, identity))
            && s'.inner == s.inner.(session := Some(AccountSession(s.inner.channel.value, token)),
                                    identity := Some(identity), secretKey := Some(key))
            && (s'.vault, true) == WriteAll(s.vault, PersistWrites(cache), faults, 1)
  {
    hide Fire, FireAll, PersistWrites, WriteAll;
    var begin := [Start(t), ResolveKey(t, typed), Acquire(t)] + [LoginGranted(t, user, token, identity)];
    SignInBegins(s, t, user, token, identity, typed, key);
    var s1 := FireAll(s, begin);
    LoginCompletes(s1, t, faults, 1);
    var complete := Writes(t, |PersistWrites(s1.threads[t].login.cache)|) + [Commit(t)];
    FireInTurn(s, begin, complete);
    events := begin + complete;
  }

  /** A connect from start to end, undisturbed: the step of `ClientSpec` if it found the server, and otherwise, a server
      of another identity than the pinned one included, nothing. */
  lemma LoneConnect(c: Suite, s: Race, t: nat, host: string, port: Port, net: Network, nonce: Bytes, faults: Faults,
                    to: Channel, server: VerifiedServer)
    requires s.lock == None && t !in s.threads && !faults(0) && (Profile in s.vault ==> s.vault[Profile].Json?)
    ensures var s' := Fire(Fire(s, StartConnect(t)), FinishConnect(t, to, server, FormatEndpoint(host, port)));
            var (after, r) := Connect(c, State(s.inner, s.vault), host, port, net, nonce, faults);
            && (r.Ok? && server == after.inner.verified.value && Some(to) == after.inner.channel ==>
                  State(s'.inner, s'.vault) == after)
            && (StoredPin(s.vault).Some? && StoredPin(s.vault) != Some(server.identityPublic) ==>
                  s'.inner == s.inner && s'.vault == s.vault)
  {
    hide FormatEndpoint, DiscoverAndConnect, PersistWrites, ReadSecretKey;
    var s1 := Fire(s, StartConnect(t));
    assert s1 == Move(s, t, Connecting(StoredPin(s.vault)));
    LinkFires(s1, t, StoredPin(s.vault), to, server, FormatEndpoint(host, port));
  }

  lemma LinkFires(s: Race, t: nat, pin: Option<Bytes>, to: Channel, server: VerifiedServer, endpoint: string)
    requires t in s.threads && s.threads[t] == Connecting(pin)
    ensures Fire(s, FinishConnect(t, to, server, endpoint)) == Link(s, t, pin, to, server, endpoint)
  {
    hide PersistWrites;
  }

  /** An enroll_this_device from start to end, undisturbed: the step of `ClientSpec`. */
  lemma LoneEnroll(s: Race, t: nat, deviceSecret: Bytes, faults: Faults)
    requires s.lock == None && t !in s.threads && s.inner.session.Some? && !faults(0)
    ensures var s' := Fire(FireAll(s, [Start(t), Acquire(t), DeviceRegistered(t, deviceSecret)]), StoreDevice(t));
            && State(s'.inner, s'.vault) == EnrollDevice(State(s.inner, s.vault), deviceSecret, Ok(()), faults).0
            && s'.lock == None && s'.threads == s.threads[t := Returned]
  {
    hide PersistWrites;
    var s1 := Move(s, t, Starting);
    AcquireFires(s1, t);
    var s2 := Fire(s1, Acquire(t));
    assert Fire(s, Start(t)) == s1;
    assert s2.lock == Some(t) && s2.threads[t] == Holding(None);
    var s3 := Fire(s2, DeviceRegistered(t, deviceSecret));
    DeviceFires(s2, t, deviceSecret);
    hide Fire, FireAll;
    FireThrice(s, Start(t), Acquire(t), DeviceRegistered(t, deviceSecret));
  }

  lemma DeviceFires(s: Race, t: nat, secret: Bytes)
    requires t in s.threads && s.threads[t] == Holding(None) && s.inner.session.Some?
    ensures Fire(s, DeviceRegistered(t, secret)) == Move(s, t, StoringDevice(secret))
    ensures Fire(Move(s, t, StoringDevice(secret)), StoreDevice(t)) ==
            Release(Move(s, t, StoringDevice(secret)), t).(vault := s.vault[DeviceSecret := Raw(secret)])
  {
    hide PersistWrites;
  }

  /** A sign_out from start to end, undisturbed: the step of `ClientSpec`. */
  lemma LoneSignOut(s: Race, t: nat, faults: Faults)
    requires s.lock == None && t !in s.threads && !faults(0) && !faults(1)
    ensures var s' := Fire(FireAll(s, [StartSignOut(t), DeleteNext(t), DeleteNext(t)]), ResetInner(t));
            State(s'.inner, s'.vault) == SignOut(State(s.inner, s.vault), faults).0
  {
    hide PersistWrites;
    assert CLEAR_SESSION_ORDER[1..] == [MasterKey] && CLEAR_SESSION_ORDER[1..][1..] == [];
    var s1 := Move(s, t, SigningOut(0));
    SigningOutSteps(s, t);
    hide Fire, FireAll;
    FireThrice(s, StartSignOut(t), DeleteNext(t), DeleteNext(t));
  }

  lemma SigningOutSteps(s: Race, t: nat)
    requires s.lock == None && t !in s.threads
    ensures var s1 := Move(s, t, SigningOut(0)); var s2 := DeleteOne(s1, t, 0); var s3 := DeleteOne(s2, t, 1);
            && Fire(s, StartSignOut(t)) == s1 && Fire(s1, DeleteNext(t)) == s2 && Fire(s2, DeleteNext(t)) == s3
            && Fire(s3, ResetInner(t)).inner == INNER_DEFAULT
            && Fire(s3, ResetInner(t)).vault == s.vault - {SessionToken} - {MasterKey}
  {
    hide PersistWrites;
  }

  /** A call that fails under the lock leaves memory and vault as they were, and the lock free. */
  lemma RefusedReleases(s: Race, t: nat)
    requires t in s.threads && s.threads[t].Holding?
    ensures Fire(s, Refused(t)) == s.(lock := None, threads := s.threads[t := Returned])
  {
    hide PersistWrites;
  }
}
