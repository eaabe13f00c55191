/** Each call of `Devices`, run from start to end with nothing in between, does what the step of `ClientSpec` does to
    its device, and brings to the server what that step sends. */
module DeviceSteps {
  import opened Common
  import opened Primitives
  import opened Crypto
  import opened Storage
  import opened Transport
  import opened Flows
  import opened ClientSpec
  import opened Devices
  import opened DeviceRuns

  // ---- sign_in ----

  function Writes(call: nat, k: nat): seq<Event> { seq(k, _ => WriteNext(call)) }

  lemma WriteFires(c: Suite, s: System, call: nat)
    requires call in s.calls && s.calls[call].Persisting? && s.calls[call].device in s.devices
    ensures Fire(c, s, WriteNext(call)) ==
            AdvanceSignIn(c, s, s.devices[s.calls[call].device], call, s.calls[call], WriteNext(call))
  {
    hide AdvanceSignIn;
  }

  lemma {:induction false} WritesFire(c: Suite, s: System, call: nat, k: nat, faults: Faults, at: nat)
    requires call in s.calls && s.calls[call].Persisting? && s.calls[call].device in s.devices
    requires s.calls[call].written + k <= |PersistWrites(s.calls[call].cache)| && forall i :: !faults(i)
    ensures var p, s' := s.calls[call], FireAll(c, s, Writes(call, k));
            var writes := PersistWrites(p.cache);
            && s'.calls == s.calls[call := p.(written := p.written + k)] && s'.devices.Keys == s.devices.Keys
            && s'.devices[p.device].inner == s.devices[p.device].inner
            && WriteAll(s.devices[p.device].vault, writes[p.written..], faults, at) ==
               WriteAll(s'.devices[p.device].vault, writes[p.written + k..], faults, at + k)
  {
    hide Fire, AdvanceSignIn, PersistWrites;
    if k > 0 {
      WritesFire(c, s, call, k - 1, faults, at);
      assert Writes(call, k)[..k - 1] == Writes(call, k - 1);
      var before, p := FireAll(c, s, Writes(call, k - 1)), s.calls[call];
      WriteFires(c, before, call);
      PersistMoves(c, before, before.devices[p.device], call, before.calls[call], WriteNext(call));
      var writes := PersistWrites(p.cache);
      assert writes[p.written + k - 1..][1..] == writes[p.written + k..];
    }
  }

  lemma NothingLeft(v: Entries, faults: Faults, at: nat)
    ensures WriteAll(v, [], faults, at) == (v, true)
  {
  }

  lemma UnlockFires(c: Suite, s: System, call: nat)
    requires call in s.calls && s.calls[call].SignInFetched? && s.calls[call].device in s.devices
    requires Unlocked(c, s.devices[s.calls[call].device], s.calls[call]).Some?
    ensures Fire(c, s, UnlockFor(call)) ==
            Waiting(s, call, Unlocked(c, s.devices[s.calls[call].device], s.calls[call]).value)
  {
    hide Unlocked, PersistWrites;
  }

  lemma CommitFires(c: Suite, s: System, call: nat)
    requires call in s.calls && s.calls[call].Persisting? && s.calls[call].device in s.devices
    requires s.calls[call].written == |PersistWrites(s.calls[call].cache)|
    requires s.devices[s.calls[call].device].inner.channel.Some?
    ensures var p := s.calls[call];
            && p.device in Fire(c, s, Commit(call)).devices
            && Fire(c, s, Commit(call)).devices[p.device] == SignedInState(s.devices[p.device], p.cache, p.identity)
  {
    hide PersistWrites, SignedInState;
  }

  /** From its unlock on. */
  lemma UndisturbedFromUnlock(c: Suite, s: System, call: nat, typed: Option<string>, faults: Faults)
    requires call in s.calls && s.calls[call].SignInFetched? && s.calls[call].device in s.devices
    requires forall i :: !faults(i)
    requires ResolveSecretKey(s.devices[s.calls[call].device], typed, false) == Ok(s.calls[call].key)
    requires Unlocked(c, s.devices[s.calls[call].device], s.calls[call]).Some?
    ensures var p := s.calls[call];
            var s1 := Fire(c, s, UnlockFor(call));
            var s3 := Fire(c, FireAll(c, s1, Writes(call, 4)), Commit(call));
            && p.device in s3.devices
            && s3.devices[p.device] ==
               SignIn(c, s.devices[p.device], p.password, typed, Ok(SessionGranted(p.session)),
                      Ok(p.material), faults).0
  {
    var p := s.calls[call];
    var state := s.devices[p.device];
    UnlockFires(c, s, call);
    var s1 := Fire(c, s, UnlockFor(call));
    var p1 := Unlocked(c, state, p).value;
    var writes := PersistWrites(p1.cache);
    assert |writes| == 4;
    hide Fire, FireAll, PersistWrites, Login, ResolveSecretKey, WriteAll;
    WritesFire(c, s1, call, 4, faults, 1);
    assert writes[0..] == writes && writes[4..] == [];
    var s2 := FireAll(c, s1, Writes(call, 4));
    NothingLeft(s2.devices[p.device].vault, faults, 5);
    CommitFires(c, s2, call);
  }

  /** From its start to the unlock: it has resolved its key, the server has let the password pass and served its
      bundle. */
  lemma SignInReachesUnlock(c: Suite, s: System, call: nat, d: nat, typed: Option<string>, session: Session, key: Bytes)
    requires call !in s.calls && d in s.devices && ResolveSecretKey(s.devices[d], typed, false) == Ok(key)
    ensures var s1 := Fire(c, s, AskSignIn(call, d, s.server.password, typed));
            Fire(c, Fire(c, s1, Grant(call, session)), FetchForSignIn(call)) ==
            Waiting(s, call, SignInFetched(d, s.server.password, key, session, BundleToKeyMaterial(s.server.bundle)))
  {
    hide ResolveSecretKey, PersistWrites, Unlocked, BundleToKeyMaterial;
    var s1 := Fire(c, s, AskSignIn(call, d, s.server.password, typed));
    assert s1 == Waiting(s, call, Resolved(d, s.server.password, key));
    var s2 := Fire(c, s1, Grant(call, session));
    assert s2.calls == s.calls[call := Granted(d, s.server.password, key, session)];
  }

  /** A sign_in on the server's current password. */
  lemma UndisturbedSignIn(c: Suite, s: System, call: nat, d: nat, typed: Option<string>, session: Session,
                          faults: Faults)
    requires call !in s.calls && d in s.devices && forall i :: !faults(i)
    requires s.devices[d].inner.channel.Some? && s.devices[d].inner.verified.Some?
    requires ResolveSecretKey(s.devices[d], typed, false).Ok?
    requires var key := ResolveSecretKey(s.devices[d], typed, false).value;
             Login(c, Ok(SessionGranted(session)), Ok(BundleToKeyMaterial(s.server.bundle)), s.server.password, key).Ok?
    ensures var s1 := Fire(c, s, AskSignIn(call, d, s.server.password, typed));
            var s2 := Fire(c, Fire(c, s1, Grant(call, session)), FetchForSignIn(call));
            var s3 := Fire(c, FireAll(c, Fire(c, s2, UnlockFor(call)), Writes(call, 4)), Commit(call));
            && d in s3.devices
            && s3.devices[d] == SignIn(c, s.devices[d], s.server.password, typed, Ok(SessionGranted(session)),
                                       Ok(BundleToKeyMaterial(s.server.bundle)), faults).0
  {
    var key := ResolveSecretKey(s.devices[d], typed, false).value;
    SignInReachesUnlock(c, s, call, d, typed, session, key);
    var s2 := Waiting(s, call, SignInFetched(d, s.server.password, key, session, BundleToKeyMaterial(s.server.bundle)));
    hide Fire, FireAll, SignIn, Login, ResolveSecretKey, PersistWrites;
    UndisturbedFromUnlock(c, s2, call, typed, faults);
  }

  /** The server grants nothing on another password. */
  lemma WrongPasswordIsNotGranted(c: Suite, s: System, call: nat, d: nat, password: Bytes, key: Bytes, session: Session)
    requires call in s.calls && s.calls[call] == Resolved(d, password, key) && password != s.server.password
    ensures Fire(c, s, Grant(call, session)) == Over(s, call)
  {
    hide PersistWrites, Unlocked;
  }

  // ---- change_password and set_avatar ----

  /** The server takes a change whole if it names the server's own password, and else not at all. */
  predicate TakesChange(s: System, s': System, sent: ChangeRequest) {
    && s'.devices == s.devices && s'.lastAvatar == s.lastAvatar
    && if sent.currentPassword == s.server.password then
         s'.server == Server(sent.newPassword, WithRewrap(s.server.bundle, sent.rewrapped), s.server.avatar)
       else s'.server == s.server
  }

  /** A change_password brings the server exactly the request of `PrepareChange`; the server takes it if the current
      password is its own, then with verifier and wrap in one step. */
  lemma UndisturbedChange(c: Suite, s: System, call: nat, d: nat, current: Bytes, newPassword: Bytes, salt: Bytes,
                          nonce: Bytes, faults: Faults)
    requires call !in s.calls && d in s.devices && forall i :: !faults(i)
    requires PrepareChange(c, s.devices[d], current, newPassword, Ok(BundleToKeyMaterial(s.server.bundle)), salt, nonce,
                           faults).Ok?
    ensures var sent := PrepareChange(c, s.devices[d], current, newPassword, Ok(BundleToKeyMaterial(s.server.bundle)),
                                      salt, nonce, faults).value;
            var s1 := Fire(c, s, AskChange(call, d, current, newPassword));
            var s2 := Fire(c, Fire(c, s1, FetchForChange(call)), RewrapOf(call, salt, nonce));
            var s3 := Fire(c, s2, SendChange(call));
            TakesChange(s, s3, sent)
  {
    hide Fire, WithRewrap, RewrapFor, BundleToKeyMaterial, Waiting;
    var key := s.devices[d].vault[SecretKey].bytes;
    var m := BundleToKeyMaterial(s.server.bundle);
    var request := RewrapFor(c, key, current, newPassword, m, salt, nonce).value;
    ChangeStarts(c, s, call, d, current, newPassword, key);
    ChangeFetches(c, s, call, d, key, current, newPassword);
    ChangeRewraps(c, s, call, ChangeFetched(d, key, current, newPassword, m), salt, nonce);
    ChangeArrives(c, s, call, d, request);
  }

  lemma ChangeStarts(c: Suite, s: System, call: nat, d: nat, current: Bytes, newPassword: Bytes, key: Bytes)
    requires call !in s.calls && d in s.devices && ReadSecretKey(s.devices[d].vault, false) == Ok(Some(key))
    ensures Fire(c, s, AskChange(call, d, current, newPassword)) ==
            Waiting(s, call, ChangeStarted(d, key, current, newPassword))
  {
    hide ReadSecretKey;
  }

  lemma ChangeFetches(c: Suite, s: System, call: nat, d: nat, key: Bytes, current: Bytes, newPassword: Bytes)
    requires d in s.devices && s.devices[d].inner.session.Some?
    ensures Fire(c, Waiting(s, call, ChangeStarted(d, key, current, newPassword)), FetchForChange(call)) ==
            Waiting(s, call, ChangeFetched(d, key, current, newPassword, BundleToKeyMaterial(s.server.bundle)))
  {
    hide BundleToKeyMaterial;
  }

  lemma ChangeRewraps(c: Suite, s: System, call: nat, p: Pending, salt: Bytes, nonce: Bytes)
    requires p.ChangeFetched? && p.device in s.devices
    requires RewrapFor(c, p.key, p.current, p.newPassword, p.material, salt, nonce).Ok?
    ensures Fire(c, Waiting(s, call, p), RewrapOf(call, salt, nonce)) ==
            var r := RewrapFor(c, p.key, p.current, p.newPassword, p.material, salt, nonce);
            Waiting(s, call, ChangeReady(p.device, r.value))
  {
    hide RewrapFor;
  }

  lemma ChangeArrives(c: Suite, s: System, call: nat, d: nat, sent: ChangeRequest)
    requires d in s.devices
    ensures var s' := Fire(c, Waiting(s, call, ChangeReady(d, sent)), SendChange(call));
            TakesChange(s, s', sent)
  {
    hide WithRewrap;
  }

  /** A set_avatar brings the server exactly the blob of `SealAvatar`. */
  lemma UndisturbedAvatar(c: Suite, s: System, call: nat, d: nat, png: Bytes, nonce: Bytes, faults: Faults)
    requires call !in s.calls && d in s.devices && forall i :: !faults(i)
    requires SealAvatar(c, s.devices[d], png, nonce, faults).Ok?
    ensures var s1 := Fire(c, Fire(c, s, SealAvatarOf(call, d, png, nonce)), SendAvatar(call));
            && s1.devices == s.devices && s1.lastAvatar == Some(png)
            && s1.server == s.server.(avatar := SealAvatar(c, s.devices[d], png, nonce, faults).value)
  {
    hide Seal, PersistWrites, Unlocked;
    var sealed := SealAvatar(c, s.devices[d], png, nonce, faults).value;
    assert Fire(c, s, SealAvatarOf(call, d, png, nonce)) == Waiting(s, call, AvatarReady(d, png, sealed));
  }

  /** What ends a call early, with nothing sent and the device as it was: no session for a change or an image, a bundle
      that does not unlock, a server that cannot be resumed. */
  lemma CallsEndEarly(c: Suite, s: System, call: nat, ev: Event, p: Pending)
    requires call in s.calls && s.calls[call] == p && p.device in s.devices
    requires
      || (p.ChangeStarted? && ev == FetchForChange(call) && s.devices[p.device].inner.session.None?)
      || (p.AvatarReady? && ev == SendAvatar(call) && s.devices[p.device].inner.session.None?)
      || (p.SignInFetched? && ev == UnlockFor(call) &&
          Login(c, Ok(SessionGranted(p.session)), Ok(p.material), p.password, p.key).Err?)
      || (p.Restoring? && ev.FinishRestore? && ev.call == call &&
          Resume(c, s.devices[p.device].inner, p.profile, p.token, ev.net, ev.nonce).None?)
    ensures Fire(c, s, ev) == Over(s, call)
  {
    hide Login, Resume, PersistWrites, RewrapFor;
  }

  // ---- sign_out, forget_server and restore ----

  function Deletes(call: nat, k: nat): seq<Event> { seq(k, _ => DeleteNext(call)) }

  lemma DeleteFires(c: Suite, s: System, call: nat, ev: Event)
    requires call in s.calls && s.calls[call].Removing? && s.calls[call].device in s.devices
    requires ev == DeleteNext(call) || ev == Reset(call)
    ensures Fire(c, s, ev) == AdvanceStore(c, s, s.devices[s.calls[call].device], call, s.calls[call], ev)
  {
    hide AdvanceStore;
  }

  lemma {:induction false} DeletesFire(c: Suite, s: System, call: nat, k: nat, faults: Faults, at: nat)
    requires call in s.calls && s.calls[call].Removing? && s.calls[call].device in s.devices
    requires s.calls[call].deleted + k <= |s.calls[call].keys| && forall i :: !faults(i)
    ensures var p, s' := s.calls[call], FireAll(c, s, Deletes(call, k));
            && s'.calls == s.calls[call := p.(deleted := p.deleted + k)] && s'.devices.Keys == s.devices.Keys
            && s'.devices[p.device].inner == s.devices[p.device].inner
            && DeleteAll(s.devices[p.device].vault, p.keys[p.deleted..], faults, at) ==
               DeleteAll(s'.devices[p.device].vault, p.keys[p.deleted + k..], faults, at + k)
  {
    hide Fire, AdvanceStore;
    if k > 0 {
      DeletesFire(c, s, call, k - 1, faults, at);
      assert Deletes(call, k)[..k - 1] == Deletes(call, k - 1);
      var before, p := FireAll(c, s, Deletes(call, k - 1)), s.calls[call];
      DeleteFires(c, before, call, DeleteNext(call));
      RemovalMoves(c, before, before.devices[p.device], call, before.calls[call], DeleteNext(call));
      assert p.keys[p.deleted + k - 1..][1..] == p.keys[p.deleted + k..];
    }
  }

  lemma UndisturbedRemoval(c: Suite, s: System, call: nat, d: nat, everything: bool, faults: Faults)
    requires call !in s.calls && d in s.devices && forall i :: !faults(i)
    ensures var s1 := Fire(c, s, StartRemoval(call, d, everything));
            var s2 := Fire(c, FireAll(c, s1, Deletes(call, if everything then 5 else 2)), Reset(call));
            && d in s2.devices
            && s2.devices[d] == if everything then ForgetServer(s.devices[d], faults).0
                                else SignOut(s.devices[d], faults).0
  {
    var keys := if everything then CLEAR_ORDER else CLEAR_SESSION_ORDER;
    RemovalStarts(c, s, call, d, everything);
    var s1 := Waiting(s, call, Removing(d, keys, 0));
    hide Fire, FireAll, DeleteAll;
    DeletesFire(c, s1, call, |keys|, faults, 0);
    assert keys[0..] == keys && keys[|keys|..] == [];
    var s2 := FireAll(c, s1, Deletes(call, |keys|));
    NothingToDelete(s2.devices[d].vault, faults, |keys|);
    DeleteFires(c, s2, call, Reset(call));
    RemovalMoves(c, s2, s2.devices[d], call, s2.calls[call], Reset(call));
  }

  lemma RemovalStarts(c: Suite, s: System, call: nat, d: nat, everything: bool)
    requires call !in s.calls && d in s.devices
    ensures Fire(c, s, StartRemoval(call, d, everything)) ==
            Waiting(s, call, Removing(d, if everything then CLEAR_ORDER else CLEAR_SESSION_ORDER, 0))
  {
  }

  lemma NothingToDelete(v: Entries, faults: Faults, at: nat)
    ensures DeleteAll(v, [], faults, at) == (v, true)
  {
  }

  lemma UndisturbedRestore(c: Suite, s: System, call: nat, d: nat, net: Network, nonce: Bytes, faults: Faults)
    requires call !in s.calls && d in s.devices && forall i :: !faults(i)
    ensures var s1 := Fire(c, Fire(c, s, StartRestore(call, d)), FinishRestore(call, net, nonce));
            d in s1.devices && s1.devices[d] == Restore(c, s.devices[d], net, nonce, faults).0
  {
    hide Fire, Resume;
    RestoreStarts(c, s, call, d);
    var state := s.devices[d];
    match (ReadProfile(state.vault, false), ReadSessionToken(state.vault, false))
    case (Ok(Some(profile)), Ok(Some(token))) => RestoreContinues(c, s, call, Restoring(d, profile, token), net, nonce);
    case _ => NothingToFinish(c, s, call, net, nonce);
  }

  lemma RestoreStarts(c: Suite, s: System, call: nat, d: nat)
    requires call !in s.calls && d in s.devices
    ensures var state := s.devices[d];
            Fire(c, s, StartRestore(call, d)) ==
            match (ReadProfile(state.vault, false), ReadSessionToken(state.vault, false))
            case (Ok(Some(profile)), Ok(Some(token))) => Waiting(s, call, Restoring(d, profile, token))
            case _ => s
  {
    hide ReadProfile, ReadSessionToken;
  }

  lemma RestoreContinues(c: Suite, s: System, call: nat, p: Pending, net: Network, nonce: Bytes)
    requires p.Restoring? && p.device in s.devices
    ensures Fire(c, Waiting(s, call, p), FinishRestore(call, net, nonce)) ==
            AdvanceStore(c, Waiting(s, call, p), s.devices[p.device], call, p, FinishRestore(call, net, nonce))
  {
    hide AdvanceStore;
  }

  lemma NothingToFinish(c: Suite, s: System, call: nat, net: Network, nonce: Bytes)
    requires call !in s.calls
    ensures Fire(c, s, FinishRestore(call, net, nonce)) == s
  {
  }
}
