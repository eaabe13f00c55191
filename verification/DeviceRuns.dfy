/** Runs of `Devices` in which the calls that write a device's store or session come one at a time on that device and
    no store operation is refused. Everything else, on that device and on others, interleaves freely. */
module DeviceRuns {
  import opened Common
  import opened Primitives
  import opened Crypto
  import opened Storage
  import opened Transport
  import opened Flows
  import opened ClientSpec
  import opened ClientRuns
  import opened Devices

  predicate Writer(p: Pending) { p.Persisting? || p.Removing? || p.Restoring? }

  /** No sign-in is persisting on this device, and no sign_out, forget_server or restore is under way. */
  predicate NoWriter(s: System, d: nat) {
    forall call | call in s.calls :: Writer(s.calls[call]) ==> s.calls[call].device != d
  }

  predicate OneByOne(s: System, ev: Event) {
    match ev
    case UnlockFor(call) => call in s.calls ==> NoWriter(s, s.calls[call].device)
    case StartRemoval(_, d, _) => NoWriter(s, d)
    case StartRestore(_, d) => NoWriter(s, d)
    case Abandon(call) => call in s.calls ==> !s.calls[call].Persisting? && !s.calls[call].Removing?
    case _ => true
  }

  /** A token has its keys, and a session its master key. */
  predicate Ready(s: State) {
    TokenHasKeys(s.vault) && (s.inner.session.Some? ==> MasterKey in s.vault)
  }

  /** How far a writer may have brought its device. */
  predicate WriterHolds(s: State, p: Pending) {
    match p
    case Persisting(_, cache, _, k) =>
      && Ready(s) && k <= |PersistWrites(cache)|
      && (k >= 1 ==> MasterKey in s.vault) && (k >= 2 ==> SecretKey in s.vault)
    case Removing(_, keys, k) =>
      && k <= |keys| && (keys == CLEAR_SESSION_ORDER || keys == CLEAR_ORDER)
      && (k == 0 ==> Ready(s))
      && (k >= (if keys == CLEAR_ORDER then 4 else 1) ==> SessionToken !in s.vault)
    case Restoring(_, _, _) => Ready(s) && SessionToken in s.vault
    case _ => true
  }

  predicate Orderly(s: System) {
    && (forall call | call in s.calls :: s.calls[call].device in s.devices)
    && (forall call, call' | call in s.calls && call' in s.calls ::
          Writer(s.calls[call]) && Writer(s.calls[call']) && s.calls[call].device == s.calls[call'].device ==>
            call == call')
    && (forall call | call in s.calls :: WriterHolds(s.devices[s.calls[call].device], s.calls[call]))
    && (forall d | d in s.devices :: NoWriter(s, d) ==> Ready(s.devices[d]))
  }

  // ---- How the system moves ----

  lemma WriterActs(s: System, call: nat, p: Pending, state: State)
    requires Orderly(s) && call in s.calls && Writer(s.calls[call])
    requires Writer(p) && p.device == s.calls[call].device && WriterHolds(state, p)
    ensures Orderly(WithDevice(Waiting(s, call, p), p.device, state))
  {
    hide WriterHolds, Ready;
    var s' := WithDevice(Waiting(s, call, p), p.device, state);
    forall other | other in s'.calls ensures WriterHolds(s'.devices[s'.calls[other].device], s'.calls[other]) {
      if other != call && s'.calls[other].device == p.device {
        BystanderHolds(s.devices[p.device], state, s.calls[other]);
      }
    }
    forall d | d in s'.devices && NoWriter(s', d) ensures Ready(s'.devices[d]) {
      assert s'.calls[call] == p;
      forall other | other in s.calls && Writer(s.calls[other]) ensures s.calls[other].device != d {
        assert other != call ==> s'.calls[other] == s.calls[other];
      }
      assert NoWriter(s, d);
    }
  }

  lemma BystanderHolds(before: State, after: State, p: Pending)
    requires !Writer(p)
    ensures WriterHolds(after, p)
  {
  }

  lemma WriterEnds(s: System, call: nat, state: State)
    requires Orderly(s) && call in s.calls && Writer(s.calls[call]) && Ready(state)
    ensures Orderly(WithDevice(Over(s, call), s.calls[call].device, state))
  {
    hide WriterHolds, Ready;
    var d := s.calls[call].device;
    var s' := WithDevice(Over(s, call), d, state);
    forall other | other in s'.calls ensures WriterHolds(s'.devices[s'.calls[other].device], s'.calls[other]) {
      if s'.calls[other].device == d {
        BystanderHolds(s.devices[d], state, s.calls[other]);
      }
    }
    forall d' | d' in s'.devices && d' != d && NoWriter(s', d') ensures Ready(s'.devices[d']) {
      forall other | other in s.calls && Writer(s.calls[other]) ensures s.calls[other].device != d' {
        assert other != call ==> s'.calls[other] == s.calls[other];
      }
      assert NoWriter(s, d');
    }
  }

  lemma WriterStarts(s: System, call: nat, p: Pending)
    requires Orderly(s) && Writer(p) && p.device in s.devices && NoWriter(s, p.device)
    requires call in s.calls ==> !Writer(s.calls[call])
    requires WriterHolds(s.devices[p.device], p)
    ensures Orderly(Waiting(s, call, p))
  {
    hide WriterHolds, Ready;
    var s' := Waiting(s, call, p);
    forall d | d in s'.devices && NoWriter(s', d) ensures Ready(s'.devices[d]) {
      OthersWrite(s, call, p, d);
    }
  }

  lemma OthersWrite(s: System, call: nat, p: Pending, d: nat)
    requires call in s.calls ==> !Writer(s.calls[call])
    ensures NoWriter(Waiting(s, call, p), d) ==> NoWriter(s, d)
  {
    var s' := Waiting(s, call, p);
    if NoWriter(s', d) {
      forall other | other in s.calls && Writer(s.calls[other]) ensures s.calls[other].device != d {
        assert s'.calls[other] == s.calls[other];
      }
    }
  }

  lemma BystanderMoves(s: System, call: nat, p: Pending)
    requires Orderly(s) && !Writer(p) && p.device in s.devices && (call in s.calls ==> !Writer(s.calls[call]))
    ensures Orderly(Waiting(s, call, p))
  {
    hide WriterHolds, Ready;
    var s' := Waiting(s, call, p);
    BystanderHolds(s.devices[p.device], s.devices[p.device], p);
    forall d | d in s'.devices && NoWriter(s', d) ensures Ready(s'.devices[d]) {
      OthersWrite(s, call, p, d);
    }
  }

  lemma CallEnds(s: System, call: nat)
    requires Orderly(s) && call in s.calls && (Writer(s.calls[call]) ==> Ready(s.devices[s.calls[call].device]))
    ensures Orderly(Over(s, call))
  {
    hide WriterHolds, Ready;
    var s' := Over(s, call);
    forall d | d in s'.devices && NoWriter(s', d) ensures Ready(s'.devices[d]) {
      if !Writer(s.calls[call]) || s.calls[call].device != d {
        forall other | other in s.calls && Writer(s.calls[other]) ensures s.calls[other].device != d {
          assert other != call ==> s'.calls[other] == s.calls[other];
        }
        assert NoWriter(s, d);
      }
    }
  }

  /** A local call leaves the vault alone, up to the device secret, and opens no session. */
  lemma LocalIsOrderly(c: Suite, s: System, d: nat, step: Call)
    requires Orderly(s) && d in s.devices && IsLocal(step)
    ensures Orderly(WithDevice(s, d, Step(c, s.devices[d], step).0))
  {
    hide WriterHolds, Ready, Step;
    var state := Step(c, s.devices[d], step).0;
    var s' := WithDevice(s, d, state);
    forall call | call in s'.calls ensures WriterHolds(s'.devices[s'.calls[call].device], s'.calls[call]) {
      LocalKeepsHold(c, s.devices[d], s.calls[call], step);
    }
    forall d' | d' in s'.devices && NoWriter(s', d') ensures Ready(s'.devices[d']) {
      assert NoWriter(s, d');
      LocalKeepsReady(c, s.devices[d], step);
    }
  }

  lemma LocalKeepsReady(c: Suite, s: State, step: Call)
    requires IsLocal(step)
    ensures Ready(s) ==> Ready(Step(c, s, step).0)
  {
    hide DiscoverAndConnect;
  }

  lemma LocalKeepsHold(c: Suite, s: State, p: Pending, step: Call)
    requires IsLocal(step)
    ensures WriterHolds(s, p) ==> WriterHolds(Step(c, s, step).0, p)
  {
    hide DiscoverAndConnect, PersistWrites;
  }

  // ---- Every step ----

  lemma WriteKeepsHold(state: State, p: Pending)
    requires p.Persisting? && p.written < |PersistWrites(p.cache)| && WriterHolds(state, p)
    ensures var w := PersistWrites(p.cache)[p.written];
            WriterHolds(state.(vault := state.vault[w.0 := w.1]), p.(written := p.written + 1))
  {
  }

  lemma DeleteKeepsHold(state: State, p: Pending)
    requires p.Removing? && p.deleted < |p.keys| && WriterHolds(state, p)
    ensures WriterHolds(state.(vault := state.vault - {p.keys[p.deleted]}), p.(deleted := p.deleted + 1))
  {
  }

  lemma CommitIsReady(state: State, p: Pending)
    requires p.Persisting? && p.written == |PersistWrites(p.cache)| && WriterHolds(state, p)
    requires state.inner.channel.Some?
    ensures Ready(SignedInState(state, p.cache, p.identity))
  {
  }

  lemma PersistMoves(c: Suite, s: System, state: State, call: nat, p: Pending, ev: Event)
    requires p.Persisting?
    ensures var writes, k := PersistWrites(p.cache), p.written;
            AdvanceSignIn(c, s, state, call, p, ev) ==
            if ev.WriteNext? && k < |writes| then
              WithDevice(Waiting(s, call, p.(written := k + 1)), p.device,
                         state.(vault := state.vault[writes[k].0 := writes[k].1]))
            else if ev.Commit? && k == |writes| && state.inner.channel.Some? then
              WithDevice(Over(s, call), p.device, SignedInState(state, p.cache, p.identity))
            else s
  {
    hide PersistWrites, SignedInState;
  }

  lemma PersistIsOrderly(c: Suite, s: System, call: nat, ev: Event)
    requires Orderly(s) && call in s.calls && s.calls[call].Persisting?
    ensures var p := s.calls[call]; Orderly(AdvanceSignIn(c, s, s.devices[p.device], call, p, ev))
  {
    var p := s.calls[call];
    var state := s.devices[p.device];
    assert WriterHolds(state, p);
    hide Orderly, WriterHolds, Ready, PersistWrites, SignedInState, AdvanceSignIn;
    PersistMoves(c, s, state, call, p, ev);
    if ev.WriteNext? && p.written < |PersistWrites(p.cache)| {
      WriteKeepsHold(state, p);
      var w := PersistWrites(p.cache)[p.written];
      WriterActs(s, call, p.(written := p.written + 1), state.(vault := state.vault[w.0 := w.1]));
    } else if ev.Commit? && p.written == |PersistWrites(p.cache)| && state.inner.channel.Some? {
      CommitIsReady(state, p);
      WriterEnds(s, call, SignedInState(state, p.cache, p.identity));
    }
  }

  lemma UnlockedStarts(c: Suite, state: State, p: Pending)
    requires p.SignInFetched? && Ready(state)
    ensures var p' := Unlocked(c, state, p);
            p'.Some? ==> Writer(p'.value) && p'.value.device == p.device && WriterHolds(state, p'.value)
  {
    hide Login;
  }

  /** What an event of a call that writes nothing on its device can do. */
  predicate Settles(s: System, call: nat, d: nat, s': System) {
    || s' == s
    || s' == Over(s, call).(server := s'.server, lastAvatar := s'.lastAvatar)
    || (&& call in s'.calls && !Writer(s'.calls[call]) && s'.calls[call].device == d
        && s' == Waiting(s, call, s'.calls[call]))
  }

  lemma SettledIsOrderly(s: System, call: nat, s': System)
    requires Orderly(s) && call in s.calls && !Writer(s.calls[call]) && Settles(s, call, s.calls[call].device, s')
    ensures Orderly(s')
  {
    var d := s.calls[call].device;
    assert d in s.devices;
    hide Orderly, Writer;
    CallEnds(s, call);
    ServerIsApart(Over(s, call), s'.server, s'.lastAvatar);
    if s' != s && call in s'.calls && !Writer(s'.calls[call]) && s'.calls[call].device == d
       && s' == Waiting(s, call, s'.calls[call]) {
      BystanderMoves(s, call, s'.calls[call]);
    }
  }

  lemma SignInMoves(c: Suite, s: System, state: State, call: nat, p: Pending, ev: Event)
    requires p.Resolved? || p.Granted? || p.SignInFetched?
    ensures var s' := AdvanceSignIn(c, s, state, call, p, ev);
            || Settles(s, call, p.device, s')
            || (&& p.SignInFetched? && ev.UnlockFor? && Unlocked(c, state, p).Some?
                && s' == Waiting(s, call, Unlocked(c, state, p).value))
  {
    hide Unlocked, PersistWrites, SignedInState;
  }

  lemma SignInIsOrderly(c: Suite, s: System, call: nat, ev: Event)
    requires Orderly(s) && call in s.calls && OneByOne(s, ev) && (ev.UnlockFor? ==> ev.call == call)
    requires s.calls[call].Resolved? || s.calls[call].Granted? || s.calls[call].SignInFetched?
    ensures var p := s.calls[call]; Orderly(AdvanceSignIn(c, s, s.devices[p.device], call, p, ev))
  {
    var p := s.calls[call];
    var state := s.devices[p.device];
    assert p.device in s.devices;
    assert p.SignInFetched? && ev.UnlockFor? ==> Ready(state);
    hide Orderly, WriterHolds, Ready, Unlocked, NoWriter, AdvanceSignIn, Settles;
    SignInMoves(c, s, state, call, p, ev);
    var s' := AdvanceSignIn(c, s, state, call, p, ev);
    if Settles(s, call, p.device, s') {
      SettledIsOrderly(s, call, s');
    } else {
      UnlockedStarts(c, state, p);
      WriterStarts(s, call, Unlocked(c, state, p).value);
    }
  }

  lemma ServerIsApart(s: System, server: Server, last: Option<Bytes>)
    requires Orderly(s)
    ensures Orderly(s.(server := server, lastAvatar := last))
  {
    hide WriterHolds, Ready;
    var s' := s.(server := server, lastAvatar := last);
    assert forall d :: NoWriter(s', d) == NoWriter(s, d);
  }

  lemma RequestMoves(c: Suite, s: System, state: State, call: nat, p: Pending, ev: Event)
    ensures Settles(s, call, p.device, AdvanceRequest(c, s, state, call, p, ev))
  {
    hide RewrapFor, WithRewrap;
  }

  lemma RequestIsOrderly(c: Suite, s: System, call: nat, ev: Event)
    requires Orderly(s) && call in s.calls && !Writer(s.calls[call])
    ensures var p := s.calls[call]; Orderly(AdvanceRequest(c, s, s.devices[p.device], call, p, ev))
  {
    var p := s.calls[call];
    assert p.device in s.devices;
    hide Orderly, AdvanceRequest, Settles;
    RequestMoves(c, s, s.devices[p.device], call, p, ev);
    SettledIsOrderly(s, call, AdvanceRequest(c, s, s.devices[p.device], call, p, ev));
  }

  lemma RemovedIsReady(state: State, p: Pending)
    requires p.Removing? && p.deleted == |p.keys| && WriterHolds(state, p)
    ensures Ready(state.(inner := INNER_DEFAULT))
  {
  }

  lemma ResumedIsReady(c: Suite, state: State, p: Pending, net: Network, nonce: Bytes)
    requires p.Restoring? && WriterHolds(state, p)
    ensures var inner := Resume(c, state.inner, p.profile, p.token, net, nonce);
            Ready(state) && (inner.Some? ==> Ready(state.(inner := inner.value)))
  {
  }

  lemma RemovalMoves(c: Suite, s: System, state: State, call: nat, p: Pending, ev: Event)
    requires p.Removing?
    ensures AdvanceStore(c, s, state, call, p, ev) ==
            if ev.DeleteNext? && p.deleted < |p.keys| then
              WithDevice(Waiting(s, call, p.(deleted := p.deleted + 1)), p.device,
                         state.(vault := state.vault - {p.keys[p.deleted]}))
            else if ev.Reset? && p.deleted == |p.keys| then
              WithDevice(Over(s, call), p.device, state.(inner := INNER_DEFAULT))
            else s
  {
    hide Resume;
  }

  lemma RemovalIsOrderly(c: Suite, s: System, call: nat, ev: Event)
    requires Orderly(s) && call in s.calls && s.calls[call].Removing?
    ensures var p := s.calls[call]; Orderly(AdvanceStore(c, s, s.devices[p.device], call, p, ev))
  {
    var p := s.calls[call];
    var state := s.devices[p.device];
    assert WriterHolds(state, p);
    hide Orderly, WriterHolds, Ready, AdvanceStore;
    RemovalMoves(c, s, state, call, p, ev);
    if ev.DeleteNext? && p.deleted < |p.keys| {
      DeleteKeepsHold(state, p);
      WriterActs(s, call, p.(deleted := p.deleted + 1), state.(vault := state.vault - {p.keys[p.deleted]}));
    } else if ev.Reset? && p.deleted == |p.keys| {
      RemovedIsReady(state, p);
      WriterEnds(s, call, state.(inner := INNER_DEFAULT));
    }
  }

  lemma RestoreIsOrderly(c: Suite, s: System, call: nat, ev: Event)
    requires Orderly(s) && call in s.calls && s.calls[call].Restoring?
    ensures var p := s.calls[call]; Orderly(AdvanceStore(c, s, s.devices[p.device], call, p, ev))
  {
    var p := s.calls[call];
    var state := s.devices[p.device];
    assert WriterHolds(state, p);
    hide Orderly, WriterHolds, Ready, NoWriter, Resume;
    if ev.FinishRestore? {
      ResumedIsReady(c, state, p, ev.net, ev.nonce);
      var inner := Resume(c, state.inner, p.profile, p.token, ev.net, ev.nonce);
      if inner.Some? {
        WriterEnds(s, call, state.(inner := inner.value));
      } else {
        CallEnds(s, call);
      }
    }
  }

  lemma CallIsOrderly(s: System, call: nat)
    requires Orderly(s) && call in s.calls
    ensures s.calls[call].device in s.devices && (s.calls[call].Restoring? ==> Ready(s.devices[s.calls[call].device]))
  {
    hide Ready, NoWriter, PersistWrites;
  }

  lemma AdvanceIsOrderly(c: Suite, s: System, ev: Event)
    requires Orderly(s) && OneByOne(s, ev) && !ev.Join? && !ev.Local? && ev.call in s.calls
    ensures Orderly(Advance(c, s, ev.call, s.calls[ev.call], ev))
  {
    hide Orderly, AdvanceSignIn, AdvanceRequest, AdvanceStore, Ready, NoWriter;
    var p := s.calls[ev.call];
    CallIsOrderly(s, ev.call);
    if ev.Abandon? {
      CallEnds(s, ev.call);
    } else if p.Persisting? {
      PersistIsOrderly(c, s, ev.call, ev);
    } else if p.Removing? {
      RemovalIsOrderly(c, s, ev.call, ev);
    } else if p.Restoring? {
      RestoreIsOrderly(c, s, ev.call, ev);
    } else if p.Resolved? || p.Granted? || p.SignInFetched? {
      SignInIsOrderly(c, s, ev.call, ev);
    } else {
      RequestIsOrderly(c, s, ev.call, ev);
    }
  }

  lemma BegunIsOrderly(c: Suite, s: System, ev: Event)
    requires Orderly(s) && OneByOne(s, ev) && !ev.Join? && !ev.Local? && ev.call !in s.calls
    requires (ev.AskSignIn? || ev.AskChange? || ev.SealAvatarOf? || ev.StartRemoval? || ev.StartRestore?)
             && ev.device in s.devices && Begun(c, s.devices[ev.device], ev).Some?
    ensures Orderly(Waiting(s, ev.call, Begun(c, s.devices[ev.device], ev).value))
  {
    var p := Begun(c, s.devices[ev.device], ev).value;
    BegunStarts(c, s.devices[ev.device], ev);
    if Writer(p) {
      assert Ready(s.devices[ev.device]);
    }
    hide Orderly, WriterHolds, Ready, Begun;
    if Writer(p) {
      WriterStarts(s, ev.call, p);
    } else {
      BystanderMoves(s, ev.call, p);
    }
  }

  lemma BegunStarts(c: Suite, state: State, ev: Event)
    requires ev.AskSignIn? || ev.AskChange? || ev.SealAvatarOf? || ev.StartRemoval? || ev.StartRestore?
    requires Begun(c, state, ev).Some?
    ensures var p := Begun(c, state, ev).value;
            && p.device == ev.device && (Writer(p) ==> ev.StartRemoval? || ev.StartRestore?)
            && (Ready(state) ==> WriterHolds(state, p))
  {
    hide ResolveSecretKey, Seal, CachedMasterKey;
  }

  lemma FireIsOrderly(c: Suite, s: System, ev: Event)
    requires Orderly(s) && OneByOne(s, ev)
    ensures Orderly(Fire(c, s, ev))
  {
    hide Orderly, Advance, Begun, Step, OneByOne;
    if ev.Join? {
      if ev.device !in s.devices {
        JoinIsOrderly(s, ev.device);
      }
    } else if ev.Local? {
      if ev.device in s.devices && IsLocal(ev.step) {
        LocalIsOrderly(c, s, ev.device, ev.step);
      }
    } else if ev.call in s.calls {
      AdvanceIsOrderly(c, s, ev);
    } else if (ev.AskSignIn? || ev.AskChange? || ev.SealAvatarOf? || ev.StartRemoval? || ev.StartRestore?)
              && ev.device in s.devices && Begun(c, s.devices[ev.device], ev).Some? {
      BegunIsOrderly(c, s, ev);
    }
  }

  lemma JoinIsOrderly(s: System, d: nat)
    requires Orderly(s) && d !in s.devices
    ensures Orderly(WithDevice(s, d, FRESH))
  {
    hide WriterHolds, Ready;
    var s' := WithDevice(s, d, FRESH);
    FreshIsReady();
    forall d' | d' in s'.devices && NoWriter(s', d') ensures Ready(s'.devices[d']) {
      assert NoWriter(s, d');
    }
  }

  lemma FreshIsReady()
    ensures Ready(FRESH)
  {
  }

  predicate AllOneByOne(c: Suite, s: System, events: seq<Event>) {
    forall i | 0 <= i < |events| :: OneByOne(FireAll(c, s, events[..i]), events[i])
  }

  lemma {:induction false} RunIsOrderly(c: Suite, s: System, events: seq<Event>)
    requires Orderly(s) && AllOneByOne(c, s, events)
    ensures Orderly(FireAll(c, s, events))
  {
    hide Fire, Orderly, OneByOne;
    if events != [] {
      var n := |events| - 1;
      assert forall i | 0 <= i < n :: events[..n][..i] == events[..i];
      RunIsOrderly(c, s, events[..n]);
      FireIsOrderly(c, FireAll(c, s, events[..n]), events[n]);
    }
  }

  // ---- Main result ----

  /** In such a run, every signed-in device on which no writer is under way reads exactly the latest uploaded image,
      through any sign-outs, sign-ins, restores, restarts and password changes on any device. */
  lemma SignedInReadsTheAvatar(c: Suite, f: Founding, a: Account, events: seq<Event>, device: nat, faults: Faults)
    requires LawfulRun(c, f, a, events) && AllOneByOne(c, Founded(c, f, a), events)
    requires f.inner.session == None && !faults(0) && forall i :: !f.faults(i)
    ensures var s := FireAll(c, Founded(c, f, a), events);
            device in s.devices && NoWriter(s, device) && s.devices[device].inner.session.Some? ==>
              GetAvatar(c, s.devices[device], Ok(s.server.avatar), faults) == Ok(s.lastAvatar)
  {
    hide LawfulRun, FireAll, GetAvatar, Founded, AllOneByOne, TokenHasKeys, WriterHolds;
    FoundedIsOrderly(c, f, a);
    RunIsOrderly(c, Founded(c, f, a), events);
    GetAvatarAnswers(c, f, a, events, device, faults);
  }

  lemma FoundedIsOrderly(c: Suite, f: Founding, a: Account)
    requires f.inner.session == None && forall i :: !f.faults(i)
    ensures Orderly(Founded(c, f, a))
  {
    hide EnrollNewOwner, PersistWrites;
    var enrolled := EnrollNewOwner(c, f.e, f.password, DEFAULT_PARAMS, Ok(f.session));
    if f.inner.channel.Some? && f.inner.verified.Some? && enrolled.Ok? {
      var login := enrolled.value;
      var cache := ToCache(f.inner.verified.value.identityPublic, login.userId, login.token, login.identity.masterKey,
                           login.secretKey, Some(f.deviceSecret), f.inner.endpoints);
      var k := PersistOutcome(map[], cache, f.faults, 0);
    }
  }
}
