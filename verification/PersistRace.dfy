/** Concurrent calls on one client, interleaved at every lock operation, network answer, store read and store
    write. create_owner, sign_in and enroll_this_device write the vault under the `Inner` lock; connect reads the
    pin and sign_out deletes outside it. No store operation is refused here. */
module PersistRace {
  import opened Common
  import opened Crypto
  import opened Storage
  import opened Transport
  import opened Discovery
  import opened ClientSpec

  /** What one successful create_owner or sign_in brings. */
  datatype LoginResult = LoginResult(cache: ToCache, identity: Identity)

  /** Where one call stands. */
  datatype Thread =
    | Starting
    /** A connect that has read the pin, before the lock. */
    | Connecting(pin: Option<Bytes>)
    /** A sign-in that has resolved its Secret Key, before the lock. */
    | Resolved(key: Bytes)
    /** Holding the lock; a sign-in brings the key it resolved. */
    | Holding(resolved: Option<Bytes>)
    | Persisting(login: LoginResult, written: nat)
    | StoringDevice(secret: Bytes)
    /** A sign-out and how many of its two deletions are done. */
    | SigningOut(deleted: nat)
    | Returned

  /** What sign-outs have undone of a login: its token since it was last written, its master key since it was last
      written, the memory since a login last filled it. */
  datatype Cuts = Cuts(token: bool, key: bool, memory: bool)

  /** `last` remembers the login whose call finished last, `cut` what sign-outs have undone. */
  datatype Race = Race(
    inner: Inner,
    vault: Entries,
    lock: Option<nat>,
    threads: map<nat, Thread>,
    last: Option<LoginResult>,
    cut: Cuts)

  datatype Event =
    | Start(t: nat)
    /** sign_in: parse the typed key, or read the cached one. */
    | ResolveKey(t: nat, typed: Option<Bytes>)
    | Acquire(t: nat)
    /** The server grants a login: create_owner (with a new identity and device) or sign_in. */
    | OwnerCreated(t: nat, userId: string, token: string, identity: Identity, newKey: Bytes, deviceSecret: Bytes)
    | LoginGranted(t: nat, userId: string, token: string, identity: Identity)
    | DeviceRegistered(t: nat, secret: Bytes)
    /** The call fails under the lock. */
    | Refused(t: nat)
    | WriteNext(t: nat)
    /** All written: set the session, identity and key, release the lock. */
    | Commit(t: nat)
    | StoreDevice(t: nat)
    /** connect reads the pin, talks to the server, then takes the lock only to store what it found. */
    | StartConnect(t: nat)
    | FinishConnect(t: nat, to: Channel, server: VerifiedServer, endpoint: string)
    | StartSignOut(t: nat)
    | DeleteNext(t: nat)
    | ResetInner(t: nat)

  function Move(s: Race, t: nat, thread: Thread): Race { s.(threads := s.threads[t := thread]) }

  function Release(s: Race, t: nat): Race { Move(s, t, Returned).(lock := None) }

  function Enter(s: Race, ev: Event): Race {
    match ev
    case Start(t) => Move(s, t, Starting)
    case StartSignOut(t) => Move(s, t, SigningOut(0))
    case StartConnect(t) => Move(s, t, Connecting(StoredPin(s.vault)))
    case _ => s
  }

  function BeginPersist(s: Race, t: nat, userId: string, token: string, identity: Identity, key: Bytes,
                        device: Option<Bytes>): Race
  {
    if s.inner.channel.None? || s.inner.verified.None? then s
    else
      var cache := ToCache(s.inner.verified.value.identityPublic, userId, token, identity.masterKey, key, device,
                           s.inner.endpoints);
      Move(s, t, Persisting(LoginResult(cache, identity), 0))
  }

  function WriteOne(s: Race, t: nat, login: LoginResult, k: nat): Race {
    var writes := PersistWrites(login.cache);
    if k >= |writes| then s
    else
      var (entry, value) := writes[k];
      Move(s, t, Persisting(login, k + 1)).(
        vault := s.vault[entry := value],
        cut := s.cut.(key := s.cut.key && entry != MasterKey, token := s.cut.token && entry != SessionToken))
  }

  function Finish(s: Race, t: nat, login: LoginResult, k: nat): Race {
    if k != |PersistWrites(login.cache)| || s.inner.channel.None? then s
    else
      var session := AccountSession(s.inner.channel.value, login.cache.token);
      Release(s, t).(
        inner := s.inner.(session := Some(session), identity := Some(login.identity),
                          secretKey := Some(login.cache.secretKey)),
        last := Some(login),
        cut := s.cut.(memory := false))
  }

  function DeleteOne(s: Race, t: nat, k: nat): Race {
    if k == 0 then
      Move(s, t, SigningOut(1)).(vault := s.vault - {SessionToken}, cut := s.cut.(token := true))
    else if k == 1 then
      Move(s, t, SigningOut(2)).(vault := s.vault - {MasterKey}, cut := s.cut.(key := true))
    else s
  }

  function Link(s: Race, t: nat, pin: Option<Bytes>, to: Channel, server: VerifiedServer, endpoint: string): Race {
    if s.lock.Some? then s
    else if CheckPin(server, pin) == Mismatch then Move(s, t, Returned)
    else
      Move(s, t, Returned).(
        inner := s.inner.(channel := Some(to), verified := Some(server), endpoints := [endpoint]))
  }

  function Resolve(s: Race, t: nat, typed: Option<Bytes>): Race {
    if typed.Some? then Move(s, t, Resolved(typed.value))
    else match ReadSecretKey(s.vault, false)
      case Ok(Some(key)) => Move(s, t, Resolved(key))
      case _ => Move(s, t, Returned)
  }

  /** The next event of a call under way. */
  function Advance(s: Race, thread: Thread, ev: Event): Race {
    match (ev, thread)
    case (ResolveKey(t, typed), Starting) => Resolve(s, t, typed)
    case (Acquire(t), Starting) => if s.lock.None? then Move(s, t, Holding(None)).(lock := Some(t)) else s
    case (Acquire(t), Resolved(key)) => if s.lock.None? then Move(s, t, Holding(Some(key))).(lock := Some(t)) else s
    case (OwnerCreated(t, user, token, id, key, device), Holding(None)) =>
      BeginPersist(s, t, user, token, id, key, Some(device))
    case (LoginGranted(t, user, token, id), Holding(Some(key))) => BeginPersist(s, t, user, token, id, key, None)
    case (DeviceRegistered(t, secret), Holding(None)) =>
      if s.inner.session.Some? then Move(s, t, StoringDevice(secret)) else s
    case (Refused(t), Holding(_)) => Release(s, t)
    case (WriteNext(t), Persisting(login, k)) => WriteOne(s, t, login, k)
    case (Commit(t), Persisting(login, k)) => Finish(s, t, login, k)
    case (StoreDevice(t), StoringDevice(secret)) => Release(s, t).(vault := s.vault[DeviceSecret := Raw(secret)])
    case (FinishConnect(t, to, server, endpoint), Connecting(pin)) => Link(s, t, pin, to, server, endpoint)
    case (DeleteNext(t), SigningOut(k)) => DeleteOne(s, t, k)
    case (ResetInner(t), SigningOut(k)) =>
      if k == 2 && s.lock.None? then
        Move(s, t, Returned).(inner := INNER_DEFAULT, cut := s.cut.(memory := true))
      else s
    case _ => s
  }

  /** One step; an event that is not enabled changes nothing. */
  function Fire(s: Race, ev: Event): Race {
    if ev.t in s.threads then Advance(s, s.threads[ev.t], ev) else Enter(s, ev)
  }

  function FireAll(s: Race, events: seq<Event>): Race {
    if events == [] then s else Fire(FireAll(s, events[..|events| - 1]), events[|events| - 1])
  }

  /** A fresh install, connected or not, with no call under way. */
  predicate Fresh(s: Race) {
    && s.vault == map[] && s.lock == None && s.threads == map[] && s.last == None
    && s.inner.session == None && s.inner.identity == None && s.inner.secretKey == None
    && s.cut == Cuts(false, false, false)
  }

  // ---- What every interleaving keeps ----

  predicate HoldsLock(thread: Thread) { thread.Holding? || thread.Persisting? || thread.StoringDevice? }

  /** The lock is held by exactly the calls past their Acquire. */
  predicate LockDiscipline(s: Race) {
    && (forall t | t in s.threads :: HoldsLock(s.threads[t]) ==> s.lock == Some(t))
    && (s.lock.Some? ==> s.lock.value in s.threads && HoldsLock(s.threads[s.lock.value]))
  }

  predicate IsPersisting(s: Race) {
    s.lock.Some? && s.lock.value in s.threads && s.threads[s.lock.value].Persisting?
  }

  function LastCache(s: Race): Option<ToCache> { if s.last.Some? then Some(s.last.value.cache) else None }

  /** With no persist under way, every entry is the last login's, less what sign-outs have cut. */
  function Settled(last: Option<ToCache>, cut: Cuts): Origins {
    Origins(if cut.key then None else last, last, if cut.token then None else last, last)
  }

  /** After the first k writes of a persist over what the last login left. */
  function Blended(last: Option<ToCache>, now: ToCache, k: nat, cut: Cuts): Origins {
    Origins(if cut.key then None else if k >= 1 then Some(now) else last,
            if k >= 2 then Some(now) else last,
            if cut.token then None else if k >= 3 then Some(now) else last,
            if k == |PersistWrites(now)| then Some(now) else last)
  }

  /** Where each entry of the vault must come from. */
  function Expected(s: Race): Origins {
    if IsPersisting(s) then
      var p := s.threads[s.lock.value];
      Blended(LastCache(s), p.login.cache, p.written, s.cut)
    else Settled(LastCache(s), s.cut)
  }

  /** The session, identity and Secret Key in memory are those of one login, or of none. */
  predicate InnerFrom(inner: Inner, login: Option<LoginResult>) {
    match login
    case None => inner.session == None && inner.identity == None && inner.secretKey == None
    case Some(LoginResult(cache, identity)) =>
      && inner.session.Some? && inner.session.value.token == cache.token
      && inner.identity == Some(identity) && identity.masterKey == cache.masterKey
      && inner.secretKey == Some(cache.secretKey)
  }

  predicate PersistIsSound(s: Race) {
    IsPersisting(s) ==>
      var p := s.threads[s.lock.value];
      p.written <= |PersistWrites(p.login.cache)| && p.login.identity.masterKey == p.login.cache.masterKey
  }

  predicate Tracked(s: Race) {
    && LockDiscipline(s)
    && PersistIsSound(s)
    && Holds(s.vault, Expected(s))
    && InnerFrom(s.inner, if s.cut.memory then None else s.last)
  }

  lemma FireKeepsLock(s: Race, ev: Event)
    requires LockDiscipline(s)
    ensures LockDiscipline(Fire(s, ev))
  {
    hide PersistWrites;
  }

  /** A call without the lock cannot touch a persist under way. */
  lemma LockMoves(s: Race, ev: Event)
    requires LockDiscipline(s) && (ev.t in s.threads ==> !HoldsLock(s.threads[ev.t]))
    ensures IsPersisting(Fire(s, ev)) == IsPersisting(s)
    ensures IsPersisting(s) ==>
              Fire(s, ev).lock == s.lock && Fire(s, ev).threads[s.lock.value] == s.threads[s.lock.value]
  {
    hide PersistWrites, ReadSecretKey, StoredPin;
  }

  lemma OutsideChangesNothing(s: Race, ev: Event)
    requires ev.t in s.threads ==> !HoldsLock(s.threads[ev.t]) && !s.threads[ev.t].SigningOut?
    ensures var s' := Fire(s, ev);
            && s'.vault == s.vault && s'.last == s.last && s'.cut == s.cut
            && s'.inner.session == s.inner.session && s'.inner.identity == s.inner.identity
            && s'.inner.secretKey == s.inner.secretKey
  {
    hide PersistWrites, ReadSecretKey, StoredPin;
  }

  /** A call without the lock, sign-outs aside, changes no login in memory and nothing in the vault. */
  lemma OutsideTheLock(s: Race, ev: Event)
    requires Tracked(s)
    requires ev.t in s.threads ==> !HoldsLock(s.threads[ev.t]) && !s.threads[ev.t].SigningOut?
    ensures Tracked(Fire(s, ev))
  {
    hide Fire, PersistWrites, Holds, LockDiscipline, Blended, Settled;
    FireKeepsLock(s, ev);
    LockMoves(s, ev);
    OutsideChangesNothing(s, ev);
  }

  lemma SigningOutFires(s: Race, ev: Event)
    requires ev.t in s.threads && s.threads[ev.t].SigningOut?
    ensures var s', k := Fire(s, ev), s.threads[ev.t].deleted;
            || s' == s
            || s' == DeleteOne(s, ev.t, k)
            || (k == 2 && s.lock == None &&
                s' == Move(s, ev.t, Returned).(inner := INNER_DEFAULT, cut := s.cut.(memory := true)))
  {
  }

  lemma SigningOutIsTracked(s: Race, ev: Event)
    requires Tracked(s) && ev.t in s.threads && s.threads[ev.t].SigningOut?
    ensures Tracked(Fire(s, ev))
  {
    hide Fire, PersistWrites, LockDiscipline, IsPersisting, Holds;
    FireKeepsLock(s, ev);
    LockMoves(s, ev);
    SigningOutFires(s, ev);
    DeletionsCut(s.vault, Expected(s));
    var s' := Fire(s, ev);
    assert s' == DeleteOne(s, ev.t, 0) ==> Expected(s') == Expected(s).(token := None);
    assert s' == DeleteOne(s, ev.t, 1) ==> Expected(s') == Expected(s).(masterKey := None);
  }

  lemma DeletionsCut(v: Entries, o: Origins)
    requires Holds(v, o)
    ensures Holds(v - {SessionToken}, o.(token := None)) && Holds(v - {MasterKey}, o.(masterKey := None))
  {
  }

  lemma WriteReplaces(v: Entries, o: Origins, d: ToCache, k: nat)
    requires Holds(v, o) && k < |PersistWrites(d)|
    ensures var w := PersistWrites(d)[k];
            Holds(v[w.0 := w.1], if k == 0 then o.(masterKey := Some(d)) else if k == 1 then o.(secretKey := Some(d))
                                 else if k == 2 then o.(token := Some(d))
                                 else if k == |PersistWrites(d)| - 1 then o.(profile := Some(d)) else o)
  {
  }

  lemma PersistingIsTracked(s: Race, ev: Event)
    requires Tracked(s) && ev.t in s.threads && s.threads[ev.t].Persisting?
    ensures Tracked(Fire(s, ev))
  {
    FireKeepsLock(s, ev);
    assert s.lock == Some(ev.t);
    PersistingFires(s, ev);
    var Persisting(login, k) := s.threads[ev.t];
    WhichWrite(login.cache, k);
    if k < |PersistWrites(login.cache)| {
      WriteReplaces(s.vault, Expected(s), login.cache, k);
    }
    hide Fire, LockDiscipline, PersistWrites, Holds;
  }

  lemma PersistingFires(s: Race, ev: Event)
    requires ev.t in s.threads && s.threads[ev.t].Persisting?
    ensures var s', Persisting(login, k) := Fire(s, ev), s.threads[ev.t];
            s' == s || s' == WriteOne(s, ev.t, login, k) || s' == Finish(s, ev.t, login, k)
  {
  }

  /** The order of `persist`, entry by entry. */
  lemma WhichWrite(d: ToCache, k: nat)
    ensures var w := PersistWrites(d);
            && 4 <= |w| <= 5
            && (k < |w| ==> w[k] == if k == 0 then (MasterKey, Raw(d.masterKey))
                            else if k == 1 then (SecretKey, Raw(d.secretKey))
                            else if k == 2 then (SessionToken, Text(d.token))
                            else if k == |w| - 1 then (Profile, Json(ProfileOf(d)))
                            else (DeviceSecret, w[k].1))
  {
  }

  lemma HoldingIsTracked(s: Race, ev: Event)
    requires Tracked(s) && ev.t in s.threads && (s.threads[ev.t].Holding? || s.threads[ev.t].StoringDevice?)
    ensures Tracked(Fire(s, ev))
  {
    FireKeepsLock(s, ev);
    assert s.lock == Some(ev.t);
    hide LockDiscipline, PersistWrites;
  }

  lemma FireIsTracked(s: Race, ev: Event)
    requires Tracked(s)
    ensures Tracked(Fire(s, ev))
  {
    hide Fire, Tracked;
    if ev.t !in s.threads || !HoldsLock(s.threads[ev.t]) {
      if ev.t in s.threads && s.threads[ev.t].SigningOut? {
        SigningOutIsTracked(s, ev);
      } else {
        OutsideTheLock(s, ev);
      }
    } else if s.threads[ev.t].Persisting? {
      PersistingIsTracked(s, ev);
    } else {
      HoldingIsTracked(s, ev);
    }
  }

  lemma {:induction false} RunIsTracked(s: Race, events: seq<Event>)
    requires Tracked(s)
    ensures Tracked(FireAll(s, events))
  {
    hide Fire, Tracked;
    if events != [] {
      var n := |events| - 1;
      RunIsTracked(s, events[..n]);
      FireIsTracked(FireAll(s, events[..n]), events[n]);
    }
  }

  lemma FreshIsTracked(s: Race)
    requires Fresh(s)
    ensures Tracked(s)
  {
  }

  /** In every interleaving of any number of calls of every kind, whenever the lock is free: the Secret Key and the
      profile are those of the last login; so are the token and the master key unless a sign_out deleted them since
      that login wrote them; so is the memory unless a sign_out reset it since. */
  lemma LockFreeMeansLastLogin(s: Race, events: seq<Event>)
    requires Fresh(s) && FireAll(s, events).lock == None
    ensures var s' := FireAll(s, events);
            var last := LastCache(s');
            && Holds(s'.vault, Settled(last, s'.cut))
            && InnerFrom(s'.inner, if s'.cut.memory then None else s'.last)
  {
    FreshIsTracked(s);
    RunIsTracked(s, events);
  }

  /** So a token is left without its keys exactly when some sign_out deleted the master key after the last login wrote
      it, and none deleted the token after the last login wrote that. */
  lemma TokenLosesKeysExactly(s: Race, events: seq<Event>)
    requires Fresh(s) && FireAll(s, events).lock == None
    ensures var s' := FireAll(s, events);
            TokenHasKeys(s'.vault) <==> s'.last.None? || !s'.cut.key || s'.cut.token
  {
    hide FireAll;
    LockFreeMeansLastLogin(s, events);
  }
}
