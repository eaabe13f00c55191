/** sign_out deletes outside the lock that serialises logins. When is that harmless, and when exactly not? */
module SignOutRace {
  import opened Common
  import opened Crypto
  import opened Storage
  import opened ClientSpec
  import opened PersistRace
  import opened RaceRuns

  // ---- Sign-outs that overlap no login ----

  predicate NoSignOut(s: Race) { forall t | t in s.threads :: !s.threads[t].SigningOut? }

  /** A sign-out starts only while no call is past its Acquire, and a call acquires the lock only while no sign-out is
      under way. Sign-outs may overlap each other. */
  predicate Apart(s: Race, ev: Event) {
    (ev.StartSignOut? ==> s.lock == None) && (ev.Acquire? ==> NoSignOut(s))
  }

  predicate AllApart(s: Race, events: seq<Event>) {
    forall i | 0 <= i < |events| :: Apart(FireAll(s, events[..i]), events[i])
  }

  predicate Deleted(s: Race, n: nat) { exists t :: t in s.threads && s.threads[t] == SigningOut(n) }

  /** What sign-outs have cut, phase by phase: nothing yet, the token, the master key too, the memory too. A persist
      starts from the first or the last phase and takes the cuts back as it writes. */
  predicate Phased(s: Race) {
    if s.lock.Some? then
      && NoSignOut(s)
      && (if IsPersisting(s) then
            var k := s.threads[s.lock.value].written;
            s.cut == Cuts(s.cut.memory && k < 3, s.cut.memory && k < 1, s.cut.memory)
          else s.cut == Cuts(s.cut.memory, s.cut.memory, s.cut.memory))
    else
      || (s.cut == Cuts(false, false, false) && !Deleted(s, 1) && !Deleted(s, 2))
      || (s.cut == Cuts(true, false, false) && Deleted(s, 1) && !Deleted(s, 2))
      || (s.cut == Cuts(true, true, false) && Deleted(s, 2))
      || s.cut == Cuts(true, true, true)
  }

  lemma SigningOutKeepsPhase(s: Race, ev: Event)
    requires Tracked(s) && Phased(s) && ev.t in s.threads && s.threads[ev.t].SigningOut?
    ensures Phased(Fire(s, ev))
  {
    hide Fire, PersistWrites, Tracked, IsPersisting;
    SigningOutFires(s, ev);
    var s', k := Fire(s, ev), s.threads[ev.t].deleted;
    assert s.lock == None;
    if s' == DeleteOne(s, ev.t, k) {
      assert k < 2 ==> s'.threads[ev.t] == SigningOut(k + 1);
      assert forall t | t in s.threads && t != ev.t :: s'.threads[t] == s.threads[t];
    }
  }

  lemma PersistingKeepsPhase(s: Race, ev: Event)
    requires Tracked(s) && Phased(s) && ev.t in s.threads && s.threads[ev.t].Persisting?
    ensures Phased(Fire(s, ev))
  {
    PersistingFires(s, ev);
    var Persisting(login, k) := s.threads[ev.t];
    WhichWrite(login.cache, k);
    assert s.lock == Some(ev.t);
    hide Fire, PersistWrites, Tracked;
  }

  /** A call that is no sign-out, and the start of one, complete no deletion and leave other calls where they are. */
  lemma OthersMove(s: Race, ev: Event)
    requires ev.t in s.threads ==> !s.threads[ev.t].SigningOut?
    ensures var s' := Fire(s, ev);
            && (s'.threads == s.threads || (ev.t in s'.threads && s'.threads == s.threads[ev.t := s'.threads[ev.t]]))
            && (ev.t in s'.threads && s'.threads[ev.t].SigningOut? ==>
                  ev.StartSignOut? && s'.threads[ev.t] == SigningOut(0))
  {
    hide PersistWrites, ReadSecretKey, StoredPin;
  }

  lemma OthersDeleteNothing(s: Race, ev: Event)
    requires ev.t in s.threads ==> !s.threads[ev.t].SigningOut?
    ensures Deleted(Fire(s, ev), 1) == Deleted(s, 1) && Deleted(Fire(s, ev), 2) == Deleted(s, 2)
    ensures !ev.StartSignOut? ==> NoSignOut(Fire(s, ev)) == NoSignOut(s)
  {
    hide Fire;
    OthersMove(s, ev);
    var s' := Fire(s, ev);
    forall n | Deleted(s, n) ensures Deleted(s', n) {
      var t :| t in s.threads && s.threads[t] == SigningOut(n);
      assert s'.threads[t] == SigningOut(n);
    }
    forall n | n > 0 && Deleted(s', n) ensures Deleted(s, n) {
      var t :| t in s'.threads && s'.threads[t] == SigningOut(n);
      assert s.threads[t] == SigningOut(n);
    }
    if !ev.StartSignOut? && NoSignOut(s') {
      assert forall t | t in s.threads && t != ev.t :: s'.threads[t] == s.threads[t];
    }
  }

  lemma OutsideKeepsPhase(s: Race, ev: Event)
    requires LockDiscipline(s) && Phased(s) && Apart(s, ev)
    requires ev.t in s.threads ==> !s.threads[ev.t].SigningOut? && !HoldsLock(s.threads[ev.t])
    ensures Phased(Fire(s, ev))
  {
    OutsideChangesNothing(s, ev);
    OthersDeleteNothing(s, ev);
    LockMoves(s, ev);
    LockTaken(s, ev);
    hide Fire, LockDiscipline, HoldsLock, NoSignOut;
    assert NoSignOut(s) ==> !Deleted(s, 1) && !Deleted(s, 2) by { NothingDeleted(s); }
  }

  lemma NothingDeleted(s: Race)
    ensures NoSignOut(s) ==> !Deleted(s, 1) && !Deleted(s, 2)
  {
  }

  lemma LockTaken(s: Race, ev: Event)
    requires ev.t in s.threads ==> !HoldsLock(s.threads[ev.t])
    ensures Fire(s, ev).lock == s.lock || (s.lock == None && ev.Acquire? && !IsPersisting(Fire(s, ev)))
  {
    hide PersistWrites, ReadSecretKey, StoredPin;
  }

  lemma HoldingKeepsPhase(s: Race, ev: Event)
    requires LockDiscipline(s) && Phased(s) && ev.t in s.threads
             && (s.threads[ev.t].Holding? || s.threads[ev.t].StoringDevice?)
    ensures Phased(Fire(s, ev))
  {
    OthersDeleteNothing(s, ev);
    NothingDeleted(s);
    HoldingCutsNothing(s, ev);
    hide Fire, NoSignOut;
  }

  lemma HoldingCutsNothing(s: Race, ev: Event)
    requires LockDiscipline(s) && ev.t in s.threads && (s.threads[ev.t].Holding? || s.threads[ev.t].StoringDevice?)
    ensures var s' := Fire(s, ev); s'.cut == s.cut && (s'.lock == None || s'.lock == s.lock == Some(ev.t))
    ensures IsPersisting(Fire(s, ev)) ==> Fire(s, ev).threads[ev.t].written == 0
    ensures !ev.StartSignOut? || Fire(s, ev) == s
  {
    hide PersistWrites;
  }

  lemma FireKeepsPhase(s: Race, ev: Event)
    requires Tracked(s) && Phased(s) && Apart(s, ev)
    ensures Phased(Fire(s, ev))
  {
    hide Fire, Phased, Apart;
    if ev.t !in s.threads || !HoldsLock(s.threads[ev.t]) {
      if ev.t in s.threads && s.threads[ev.t].SigningOut? {
        SigningOutKeepsPhase(s, ev);
      } else {
        OutsideKeepsPhase(s, ev);
      }
    } else if s.threads[ev.t].Persisting? {
      PersistingKeepsPhase(s, ev);
    } else {
      HoldingKeepsPhase(s, ev);
    }
  }

  lemma {:induction false} RunKeepsPhase(s: Race, events: seq<Event>)
    requires Tracked(s) && Phased(s) && AllApart(s, events)
    ensures Phased(FireAll(s, events))
  {
    hide Fire, Tracked, Phased, Apart;
    if events != [] {
      var n := |events| - 1;
      assert forall i | 0 <= i < n :: events[..n][..i] == events[..i];
      RunKeepsPhase(s, events[..n]);
      RunIsTracked(s, events[..n]);
      FireKeepsPhase(FireAll(s, events[..n]), events[n]);
    }
  }

  /** The vault and the memory hold one and the same login. */
  predicate SignedIn(s: Race) {
    Holds(s.vault, Settled(LastCache(s), Cuts(false, false, false))) && InnerFrom(s.inner, s.last)
  }

  /** That login less its token and its master key, and nothing of it in memory. */
  predicate SignedOut(s: Race) {
    Holds(s.vault, Settled(LastCache(s), Cuts(true, true, true))) && InnerFrom(s.inner, None)
  }

  /** For any number of create_owner, sign_in, enroll_this_device, connect and sign_out calls, interleaved at will but
      for sign-outs overlapping logins: whenever the lock is free and no sign-out is under way, vault and memory hold
      one login, or that login signed out; and they hold the login if no sign-out ever started. */
  lemma LockFreeMeansOneLogin(s: Race, events: seq<Event>)
    requires Fresh(s) && AllApart(s, events)
    ensures var s' := FireAll(s, events);
            s'.lock == None && NoSignOut(s') ==> SignedIn(s') || SignedOut(s')
    ensures (forall ev | ev in events :: !ev.StartSignOut?) && FireAll(s, events).lock == None ==>
              SignedIn(FireAll(s, events))
  {
    hide FireAll, Fire, Tracked, Holds, InnerFrom;
    FreshIsTracked(s);
    NothingDeleted(s);
    RunKeepsPhase(s, events);
    var s' := FireAll(s, events);
    NothingDeleted(s');
    if s'.lock == None {
      LockFreeMeansLastLogin(s, events);
    }
    if forall ev | ev in events :: !ev.StartSignOut? {
      NoSignOutNoCut(s, events);
    }
  }

  lemma {:induction false} NoSignOutNoCut(s: Race, events: seq<Event>)
    requires NoSignOut(s) && s.cut == Cuts(false, false, false) && forall ev | ev in events :: !ev.StartSignOut?
    ensures NoSignOut(FireAll(s, events)) && FireAll(s, events).cut == s.cut
  {
    if events != [] {
      var n := |events| - 1;
      NoSignOutNoCut(s, events[..n]);
      assert events[n] in events;
      var before := FireAll(s, events[..n]);
      OthersDeleteNothing(before, events[n]);
      NothingIsCut(before, events[n]);
    }
  }

  lemma NothingIsCut(s: Race, ev: Event)
    requires s.cut == Cuts(false, false, false) && (ev.t in s.threads ==> !s.threads[ev.t].SigningOut?)
    ensures Fire(s, ev).cut == s.cut
  {
    hide PersistWrites;
  }

  // ---- One sign-out against one login, write by write ----

  lemma DeleteFires(s: Race, t: nat)
    requires t in s.threads && s.threads[t].SigningOut?
    ensures Fire(s, DeleteNext(t)) == DeleteOne(s, t, s.threads[t].deleted)
  {
    hide PersistWrites;
  }

  /** k more writes, then one deletion. */
  lemma WriteThenDelete(s: Race, t: nat, u: nat, k: nat)
    requires t in s.threads && s.threads[t].Persisting?
    requires s.threads[t].written + k <= |PersistWrites(s.threads[t].login.cache)|
    requires t != u && u in s.threads && s.threads[u].SigningOut? && s.threads[u].deleted < 2
    ensures var Persisting(login, w), d := s.threads[t], s.threads[u].deleted;
            var s' := FireAll(FireAll(s, Writes(t, k)), [DeleteNext(u)]);
            && s'.threads == s.threads[t := Persisting(login, w + k)][u := SigningOut(d + 1)]
            && s'.lock == s.lock && s'.last == s.last && s'.inner == s.inner
            && s'.cut.memory == s.cut.memory
            && s'.cut.token == (d == 0 || (s.cut.token && !(w <= 2 < w + k)))
            && s'.cut.key == (d == 1 || (s.cut.key && !(w <= 0 < w + k)))
  {
    hide Fire, FireAll, PersistWrites;
    WritesFire(s, t, k);
    var s1 := FireAll(s, Writes(t, k));
    FireOnce(s1, DeleteNext(u));
    DeleteFires(s1, u);
  }

  /** i writes, the token deletion, j - i more writes, the master-key deletion, the other writes, the commit. */
  function Schedule(t: nat, u: nat, i: nat, j: nat, n: nat): seq<Event>
    requires i <= j <= n
  {
    Writes(t, i) + [DeleteNext(u)] + Writes(t, j - i) + [DeleteNext(u)] + Writes(t, n - j) + [Commit(t)]
  }

  lemma ScheduleCuts(s: Race, t: nat, u: nat, i: nat, j: nat)
    requires t in s.threads && s.threads[t].Persisting? && s.threads[t].written == 0 && s.inner.channel.Some?
    requires t != u && u in s.threads && s.threads[u] == SigningOut(0)
    requires i <= j <= |PersistWrites(s.threads[t].login.cache)|
    ensures var s' := FireAll(s, Schedule(t, u, i, j, |PersistWrites(s.threads[t].login.cache)|));
            && s'.lock == None && s'.last == Some(s.threads[t].login)
            && s'.cut == Cuts(i >= 3, j > 0, false)
  {
    hide Fire, FireAll, PersistWrites;
    var login := s.threads[t].login;
    var n := |PersistWrites(login.cache)|;
    WhichWrite(login.cache, 0);
    WriteThenDelete(s, t, u, i);
    var s2 := FireAll(FireAll(s, Writes(t, i)), [DeleteNext(u)]);
    WriteThenDelete(s2, t, u, j - i);
    var s4 := FireAll(FireAll(s2, Writes(t, j - i)), [DeleteNext(u)]);
    WritesFire(s4, t, n - j);
    var s5 := FireAll(s4, Writes(t, n - j));
    CommitFires(s5, t);
    FireOnce(s5, Commit(t));
    ScheduleInTurn(s, t, u, i, j, n);
  }

  lemma ScheduleInTurn(s: Race, t: nat, u: nat, i: nat, j: nat, n: nat)
    requires i <= j <= n
    ensures var s2 := FireAll(FireAll(s, Writes(t, i)), [DeleteNext(u)]);
            var s4 := FireAll(FireAll(s2, Writes(t, j - i)), [DeleteNext(u)]);
            FireAll(s, Schedule(t, u, i, j, n)) == FireAll(FireAll(s4, Writes(t, n - j)), [Commit(t)])
  {
    hide FireAll, Writes;
    var cut := [DeleteNext(u)];
    FireInTurn(s, Writes(t, i) + cut + Writes(t, j - i) + cut + Writes(t, n - j), [Commit(t)]);
    FireInTurn(s, Writes(t, i) + cut + Writes(t, j - i) + cut, Writes(t, n - j));
    FireInTurn(s, Writes(t, i) + cut + Writes(t, j - i), cut);
    FireInTurn(s, Writes(t, i) + cut, Writes(t, j - i));
    FireInTurn(s, Writes(t, i), cut);
  }

  /** A sign-out against a login that is being written, in any reachable state: with i writes done before the token
      is deleted and j before the master key is, the vault ends up with a token and without its keys exactly when
      the token was not yet written at the first deletion and the master key was at the second. */
  lemma SignOutSparesLoginExactly(s0: Race, before: seq<Event>, t: nat, u: nat, i: nat, j: nat)
    requires Fresh(s0)
    requires var s := FireAll(s0, before);
             && t in s.threads && s.threads[t].Persisting? && s.threads[t].written == 0 && s.inner.channel.Some?
             && t != u && u in s.threads && s.threads[u] == SigningOut(0)
             && i <= j <= |PersistWrites(s.threads[t].login.cache)|
    ensures var s := FireAll(s0, before);
            var s' := FireAll(s, Schedule(t, u, i, j, |PersistWrites(s.threads[t].login.cache)|));
            && s'.lock == None && s'.last == Some(s.threads[t].login)
            && (TokenHasKeys(s'.vault) <==> i >= 3 || j == 0)
            && (SessionToken in s'.vault <==> i < 3) && (MasterKey in s'.vault <==> j == 0)
            && InnerFrom(s'.inner, s'.last)
  {
    hide Fire, FireAll, PersistWrites, InnerFrom, Schedule;
    var s := FireAll(s0, before);
    var events := Schedule(t, u, i, j, |PersistWrites(s.threads[t].login.cache)|);
    ScheduleCuts(s, t, u, i, j);
    FireInTurn(s0, before, events);
    LockFreeMeansLastLogin(s0, before + events);
  }

  /** Such a schedule exists from every fresh install that is connected: create_owner, cut by a sign_out between its
      second and its third write, leaves a session and a token whose master key is gone. */
  lemma SignOutBreaksIt(s: Race, user: string, token: string, identity: Identity, key: Bytes, device: Bytes)
    returns (events: seq<Event>)
    requires Fresh(s) && s.inner.channel.Some? && s.inner.verified.Some?
    ensures var s' := FireAll(s, events);
            && s'.lock == None && SessionToken in s'.vault && SecretKey in s'.vault && MasterKey !in s'.vault
            && s'.inner.session.Some?
  {
    var start := [Start(0), Acquire(0), OwnerCreated(0, user, token, identity, key, device), StartSignOut(1)];
    RaceStarts(s, user, token, identity, key, device);
    var s1 := FireAll(s, start);
    hide Fire, FireAll, PersistWrites, Schedule;
    WhichWrite(s1.threads[0].login.cache, 0);
    var race := Schedule(0, 1, 2, 2, |PersistWrites(s1.threads[0].login.cache)|);
    SignOutSparesLoginExactly(s, start, 0, 1, 2, 2);
    FireInTurn(s, start, race);
    events := start + race;
    LockFreeMeansLastLogin(s, events);
  }

  lemma RaceStarts(s: Race, user: string, token: string, identity: Identity, key: Bytes, device: Bytes)
    requires Fresh(s) && s.inner.channel.Some? && s.inner.verified.Some?
    ensures var s' := FireAll(s, [Start(0), Acquire(0), OwnerCreated(0, user, token, identity, key, device),
                                  StartSignOut(1)]);
            && s'.inner == s.inner && 0 in s'.threads && 1 in s'.threads && s'.threads[1] == SigningOut(0)
            && s'.threads[0].Persisting? && s'.threads[0].written == 0
            && s'.threads[0].login.cache.secretKey == key
  {
    var begin := [Start(0), Acquire(0), OwnerCreated(0, user, token, identity, key, device)];
    hide Fire, FireAll;
    OwnerBegins(s, 0, user, token, identity, key, device);
    var s1 := FireAll(s, begin);
    SignOutStarts(s1, 1);
    FireOnce(s1, StartSignOut(1));
    FireInTurn(s, begin, [StartSignOut(1)]);
    assert begin + [StartSignOut(1)] ==
           [Start(0), Acquire(0), OwnerCreated(0, user, token, identity, key, device), StartSignOut(1)];
  }

  lemma SignOutStarts(s: Race, t: nat)
    requires t !in s.threads
    ensures Fire(s, StartSignOut(t)) == Move(s, t, SigningOut(0))
  {
  }

}
