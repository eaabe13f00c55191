/** connect reads the pin outside the lock and stores what it found under it. When does that move the pin? */
module PinRace {
  import opened Common
  import opened Crypto
  import opened Storage
  import opened Transport
  import opened Discovery
  import opened ClientSpec
  import opened PersistRace
  import opened RaceRuns

  /** The connected server, the server of a login being persisted and every pin that a connect has read agree with
      the stored pin. */
  predicate PinAgrees(s: Race) {
    && LockDiscipline(s)
    && (StoredPin(s.vault).Some? && s.inner.verified.Some? ==>
          Some(s.inner.verified.value.identityPublic) == StoredPin(s.vault))
    && (IsPersisting(s) ==>
          && s.inner.verified.Some?
          && s.inner.verified.value.identityPublic == s.threads[s.lock.value].login.cache.identityPublic)
    && (forall t | t in s.threads && s.threads[t].Connecting? && s.threads[t].pin.Some? ::
          s.threads[t].pin == StoredPin(s.vault))
  }

  /** A connect that read no pin stores a server other than the one pinned by now. */
  predicate StaleConnect(s: Race, ev: Event) {
    && ev.FinishConnect? && ev.t in s.threads && s.threads[ev.t] == Connecting(None) && s.lock == None
    && StoredPin(s.vault).Some? && StoredPin(s.vault) != Some(ev.server.identityPublic)
  }

  lemma ConnectKeepsPinExactly(s: Race, ev: Event)
    requires PinAgrees(s) && ev.t in s.threads && s.threads[ev.t].Connecting?
    ensures PinAgrees(Fire(s, ev)) <==> !StaleConnect(s, ev)
    ensures Fire(s, ev).vault == s.vault
  {
    FireKeepsLock(s, ev);
    LockMoves(s, ev);
    hide PersistWrites, LockDiscipline, StoredPin;
  }

  lemma PersistKeepsPin(s: Race, ev: Event)
    requires PinAgrees(s) && ev.t in s.threads && s.threads[ev.t].Persisting?
    ensures PinAgrees(Fire(s, ev)) && (StoredPin(s.vault).Some? ==> StoredPin(Fire(s, ev).vault) == StoredPin(s.vault))
  {
    FireKeepsLock(s, ev);
    PersistingFires(s, ev);
    var Persisting(login, k) := s.threads[ev.t];
    WhichWrite(login.cache, k);
    assert s.lock == Some(ev.t);
    hide Fire, PersistWrites, LockDiscipline;
  }

  lemma OthersKeepPin(s: Race, ev: Event)
    requires PinAgrees(s) && (ev.t in s.threads ==> !s.threads[ev.t].Connecting? && !s.threads[ev.t].Persisting?)
    ensures PinAgrees(Fire(s, ev)) && StoredPin(Fire(s, ev).vault) == StoredPin(s.vault)
  {
    FireKeepsLock(s, ev);
    OthersKeepProfile(s, ev);
    hide PersistWrites, ReadSecretKey, LockDiscipline, StoredPin;
  }

  lemma OthersKeepProfile(s: Race, ev: Event)
    requires ev.t in s.threads ==> !s.threads[ev.t].Persisting?
    ensures StoredPin(Fire(s, ev).vault) == StoredPin(s.vault)
  {
    hide PersistWrites, ReadSecretKey;
  }

  /** Each step keeps the agreement, but for a stale connect, which breaks it; and while it holds no step moves a
      stored pin. */
  lemma PinStep(s: Race, ev: Event)
    requires PinAgrees(s)
    ensures PinAgrees(Fire(s, ev)) <==> !StaleConnect(s, ev)
    ensures StoredPin(s.vault).Some? ==> StoredPin(Fire(s, ev).vault) == StoredPin(s.vault)
  {
    hide Fire, PinAgrees;
    if ev.t in s.threads && s.threads[ev.t].Connecting? {
      ConnectKeepsPinExactly(s, ev);
    } else if ev.t in s.threads && s.threads[ev.t].Persisting? {
      PersistKeepsPin(s, ev);
    } else {
      OthersKeepPin(s, ev);
    }
  }

  /** In every run without a stale connect, the stored pin stays what it is once it is there. */
  lemma {:induction false} PinHolds(s: Race, events: seq<Event>)
    requires PinAgrees(s)
    requires forall i | 0 <= i < |events| :: !StaleConnect(FireAll(s, events[..i]), events[i])
    ensures PinAgrees(FireAll(s, events))
    ensures StoredPin(s.vault).Some? ==> StoredPin(FireAll(s, events).vault) == StoredPin(s.vault)
  {
    hide Fire, PinAgrees, StaleConnect;
    if events != [] {
      var n := |events| - 1;
      assert forall i | 0 <= i < n :: events[..n][..i] == events[..i];
      PinHolds(s, events[..n]);
      PinStep(FireAll(s, events[..n]), events[n]);
    }
  }

  // ---- No profile write between a connect's read and its commit ----

  /** A profile is written while a connect that found none is on its way. */
  predicate OverlapsConnect(s: Race, ev: Event) {
    && ev.WriteNext? && ev.t in s.threads && s.threads[ev.t].Persisting?
    && s.threads[ev.t].written + 1 == |PersistWrites(s.threads[ev.t].login.cache)|
    && exists t :: t in s.threads && s.threads[t] == Connecting(None)
  }

  /** A connect that found no profile is still right about it. */
  predicate ReadsAreFresh(s: Race) {
    forall t | t in s.threads && s.threads[t] == Connecting(None) :: StoredPin(s.vault) == None
  }

  lemma PersistKeepsReadsFresh(s: Race, ev: Event)
    requires LockDiscipline(s) && ReadsAreFresh(s) && !OverlapsConnect(s, ev)
    requires ev.t in s.threads && s.threads[ev.t].Persisting?
    ensures ReadsAreFresh(Fire(s, ev))
  {
    PersistingFires(s, ev);
    var Persisting(login, k) := s.threads[ev.t];
    WhichWrite(login.cache, k);
    hide Fire, PersistWrites, LockDiscipline;
    var s' := Fire(s, ev);
    assert forall t | t in s'.threads && s'.threads[t] == Connecting(None) ::
           t in s.threads && s.threads[t] == Connecting(None);
  }

  lemma OthersKeepReadsFresh(s: Race, ev: Event)
    requires ReadsAreFresh(s) && (ev.t in s.threads ==> !s.threads[ev.t].Persisting?)
    ensures ReadsAreFresh(Fire(s, ev))
  {
    hide PersistWrites, ReadSecretKey;
  }

  /** The pin holds in every run from a fresh install where no profile is written between a first connect's read of
      the pin and its commit. */
  lemma {:induction false} PinHoldsWithoutOverlap(s: Race, events: seq<Event>, k: nat)
    requires Fresh(s) && k <= |events|
    requires forall i | 0 <= i < |events| :: !OverlapsConnect(FireAll(s, events[..i]), events[i])
    ensures PinAgrees(FireAll(s, events)) && ReadsAreFresh(FireAll(s, events))
    ensures var then' := StoredPin(FireAll(s, events[..k]).vault);
            then'.Some? ==> StoredPin(FireAll(s, events).vault) == then'
    decreases |events|
  {
    hide Fire, PinAgrees, StaleConnect, OverlapsConnect, ReadsAreFresh;
    if k == |events| {
      assert events[..k] == events;
    }
    if events == [] {
      FreshAgrees(s);
    } else {
      var n := |events| - 1;
      var before := FireAll(s, events[..n]);
      assert forall i | 0 <= i <= n :: events[..n][..i] == events[..i];
      PinHoldsWithoutOverlap(s, events[..n], if k <= n then k else n);
      NeverStale(before, events[n]);
      PinStep(before, events[n]);
    }
  }

  lemma FreshAgrees(s: Race)
    requires Fresh(s)
    ensures PinAgrees(s) && ReadsAreFresh(s)
  {
  }

  lemma NeverStale(s: Race, ev: Event)
    requires PinAgrees(s) && ReadsAreFresh(s) && !OverlapsConnect(s, ev)
    ensures !StaleConnect(s, ev) && ReadsAreFresh(Fire(s, ev))
  {
    hide Fire, OverlapsConnect;
    if ev.t in s.threads && s.threads[ev.t].Persisting? {
      PersistKeepsReadsFresh(s, ev);
    } else {
      OthersKeepReadsFresh(s, ev);
    }
  }

  // ---- A stale connect moves the pin at the next sign-in ----

  /** From any reachable state, a stale connect lets the next sign-in overwrite the pin, with no forget_server. */
  lemma StaleConnectMovesPin(s0: Race, before: seq<Event>, stale: Event, t: nat, user: string, token: string,
                             identity: Identity, key: Bytes)
    returns (after: seq<Event>)
    requires Fresh(s0) && StaleConnect(FireAll(s0, before), stale) && t !in FireAll(s0, before).threads
    ensures StoredPin(FireAll(s0, before).vault).Some?
    ensures StoredPin(FireAll(s0, before + after).vault) == Some(stale.server.identityPublic) !=
            StoredPin(FireAll(s0, before).vault)
  {
    var s := FireAll(s0, before);
    assert StoredPin(s.vault).Some? && StoredPin(s.vault) != Some(stale.server.identityPublic);
    assert CheckPin(stale.server, None) != Mismatch;
    hide Fire, FireAll, PersistWrites;
    LinkFires(s, stale.t, None, stale.to, stale.server, stale.endpoint);
    FireOnce(s, stale);
    var s1 := FireAll(s, [stale]);
    var signIn := SignInRun(s1, t, user, token, identity, Some(key), key, _ => false);
    after := [stale] + signIn;
    FireInTurn(s, [stale], signIn);
    FireInTurn(s0, before, after);
    LockFreeMeansLastLogin(s0, before + after);
  }

  /** And such a connect is within reach: a connect to B that starts before the first profile exists, a
      create_owner on A, then the connect's commit and a sign-in. The pin was A and is B. */
  lemma ConnectRaceMovesPin(s: Race, user: string, token: string, identity: Identity, key: Bytes, device: Bytes,
                            to: Channel, server: VerifiedServer, endpoint: string)
    returns (events: seq<Event>)
    requires Fresh(s) && s.inner.channel.Some? && s.inner.verified.Some?
    requires server.identityPublic != s.inner.verified.value.identityPublic
    ensures exists k :: && 0 <= k <= |events|
                        && StoredPin(FireAll(s, events[..k]).vault) == Some(s.inner.verified.value.identityPublic)
    ensures StoredPin(FireAll(s, events).vault) == Some(server.identityPublic)
  {
    ConnectStarts(s);
    var s1 := FireAll(s, [StartConnect(0)]);
    hide Fire, FireAll, PersistWrites;
    var create := OwnerRun(s1, 1, user, token, identity, key, device, _ => false);
    var before := [StartConnect(0)] + create;
    FireInTurn(s, [StartConnect(0)], create);
    LockFreeMeansLastLogin(s, before);
    var after := StaleConnectMovesPin(s, before, FinishConnect(0, to, server, endpoint), 2, user, token, identity, key);
    events := before + after;
    assert events[..|before|] == before;
  }

  lemma ConnectStarts(s: Race)
    requires Fresh(s)
    ensures FireAll(s, [StartConnect(0)]) == s.(threads := map[0 := Connecting(None)])
  {
    FireOnce(s, StartConnect(0));
  }
}
