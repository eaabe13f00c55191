/** `restore` against the history of calls: a client with no store at all, that only remembers the latest
    login and the latest connection, predicts every answer. */
module RestoreHistory {
  import opened Common
  import opened Primitives
  import opened Discovery
  import opened DiscoveryLaws
  import opened Endpoint
  import opened Storage
  import opened Transport
  import opened Flows
  import opened ClientSpec
  import opened ClientRuns

  /** A server the user connected to: where, and the identity the call reported. */
  datatype Link = Link(host: string, port: Port, identity: Bytes)

  /** The connection of this process, and the latest login not yet undone by a sign-out or a forget. */
  datatype History = History(linked: Option<Link>, enrolled: Option<(string, Link)>)

  function Login'(h: History, user: string): History {
    if h.linked.Some? then h.(enrolled := Some((user, h.linked.value))) else h
  }

  /** The history after a call, from its inputs and its outcome alone. Failed calls and MFA outcomes do not count. */
  function Remember(h: History, call: Call, outcome: Outcome): History {
    match (call, outcome)
    case (CallConnect(host, port, _, _, _), Connected(Ok(info))) =>
      (match HexArray(info.identityFingerprint, 32)
       case Some(identity) => h.(linked := Some(Link(host, port, identity)))
       case None => h)
    case (CallCreateOwner(_, _, _, _, _), Created(Ok(enrollment))) => Login'(h, enrollment.userId)
    case (CallSignIn(_, _, _, _, _), SignedIn(Ok(Success(user)))) => Login'(h, user)
    case (CallRestore(_, _, _), Restored(Ok(Some(_)))) =>
      if h.enrolled.Some? then h.(linked := Some(h.enrolled.value.1)) else h
    case (CallSignOut(_), Done(Ok(_))) => History(None, None)
    case (CallForget(_), Done(Ok(_))) => History(None, None)
    case (Restart, _) => h.(linked := None)
    case _ => h
  }

  function HistoryOf(c: Suite, calls: seq<Call>): History {
    if calls == [] then History(None, None)
    else
      var n := |calls| - 1;
      Remember(HistoryOf(c, calls[..n]), calls[n], Step(c, Run(c, FRESH, calls[..n]), calls[n]).1)
  }

  /** The client's state stores exactly this history. */
  predicate Tracks(s: State, h: History) {
    && Consistent(s)
    && (s.inner.verified.Some? <==> h.linked.Some?)
    && (h.linked.Some? ==>
        && s.inner.endpoints == [FormatEndpoint(h.linked.value.host, h.linked.value.port)]
        && s.inner.verified.value.identityPublic == h.linked.value.identity)
    && (SessionToken in s.vault <==> h.enrolled.Some?)
    && (h.enrolled.Some? ==>
        var (user, link) := h.enrolled.value;
        && Profile in s.vault
        && s.vault[Profile] == Json(ServerProfile([FormatEndpoint(link.host, link.port)], link.identity, user)))
  }

  /** What the history predicts of a restore: the user of the latest login, if the server it was connected to still
      answers at the same place and can be dialled. */
  function Predicted(c: Suite, h: History, net: Network, nonce: Bytes): Option<string> {
    match h.enrolled
    case None => None
    case Some((user, link)) =>
      var proven := Proven(c, net, nonce, link.host, link.port);
      if && proven.Some? && proven.value.identityPublic == link.identity
         && net.dial(link.host, proven.value.grpcPort).Some?
      then Some(user)
      else None
  }

  lemma ConnectTracks(c: Suite, s: State, h: History, call: Call)
    requires Tracks(s, h) && call.CallConnect? && NothingRefused(call)
    ensures Tracks(Step(c, s, call).0, Remember(h, call, Step(c, s, call).1))
  {
    StepKeepsPin(c, s, call);
    var pinned := if Profile in s.vault then Some(s.vault[Profile].profile.identityPublic) else None;
    var connected := DiscoverAndConnect(c, call.net, call.nonce, call.host, call.port, pinned);
    if connected.Ok? {
      HexRoundTrip(connected.value.1.identityPublic);
    }
  }

  lemma LoginTracks(s: State, h: History, d: ToCache)
    requires Tracks(s, h) && s.inner.verified.Some?
    requires d.identityPublic == s.inner.verified.value.identityPublic && d.endpoints == s.inner.endpoints
    requires |d.masterKey| == 32 && |d.secretKey| == 20
    ensures Tracks(s.(vault := Written(s.vault, d, 5)), Login'(h, d.userId))
  {
    PersistStep(s, d, 5);
  }

  lemma CreateOwnerTracks(c: Suite, s: State, h: History, call: Call)
    requires Tracks(s, h) && call.CallCreateOwner? && NothingRefused(call)
    ensures Tracks(Step(c, s, call).0, Remember(h, call, Step(c, s, call).1))
  {
    var enrolled := EnrollNewOwner(c, call.e, call.password, DEFAULT_PARAMS, call.created);
    if s.inner.channel.Some? && enrolled.Ok? {
      var d := ToCache(s.inner.verified.value.identityPublic, enrolled.value.userId, enrolled.value.token,
                       enrolled.value.identity.masterKey, enrolled.value.secretKey, Some(call.deviceSecret),
                       s.inner.endpoints);
      var k := PersistOutcome(s.vault, d, call.faults, 0);
      LoginTracks(s, h, d);
    }
  }

  lemma SignInTracks(c: Suite, s: State, h: History, call: Call)
    requires Tracks(s, h) && call.CallSignIn? && NothingRefused(call)
    ensures Tracks(Step(c, s, call).0, Remember(h, call, Step(c, s, call).1))
  {
    hide ResolveSecretKey, Login, PersistWrites, WriteAll;
    var resolved := ResolveSecretKey(s, call.typed, call.faults(0));
    if resolved.Ok? && s.inner.channel.Some? {
      var loggedIn := Login(c, call.login, call.material, call.password, resolved.value);
      if loggedIn.Ok? {
        var d := ToCache(s.inner.verified.value.identityPublic, loggedIn.value.userId, loggedIn.value.token,
                         loggedIn.value.identity.masterKey, resolved.value, None, s.inner.endpoints);
        var k := PersistOutcome(s.vault, d, call.faults, 1);
        LoginTracks(s, h, d);
      }
    }
  }

  lemma RestoreTracks(c: Suite, s: State, h: History, call: Call)
    requires Tracks(s, h) && call.CallRestore? && NothingRefused(call)
    ensures Step(c, s, call).1 == Restored(Ok(Predicted(c, h, call.net, call.nonce)))
    ensures Tracks(Step(c, s, call).0, Remember(h, call, Step(c, s, call).1))
  {
    if h.enrolled.Some? {
      var (user, link) := h.enrolled.value;
      EndpointRoundTrip(link.host, link.port);
    }
  }

  lemma SignOutTracks(c: Suite, s: State, h: History, call: Call)
    requires Tracks(s, h) && (call.CallSignOut? || call.CallForget?) && NothingRefused(call)
    ensures Tracks(Step(c, s, call).0, Remember(h, call, Step(c, s, call).1))
  {
    if call.CallSignOut? {
      ClearSessionOutcome(s.vault, call.faults);
      SignOutStep(s, call.faults);
    } else {
      var k := ClearOutcome(s.vault, call.faults);
    }
  }

  lemma StepTracks(c: Suite, s: State, h: History, call: Call)
    requires Tracks(s, h) && NothingRefused(call)
    ensures Tracks(Step(c, s, call).0, Remember(h, call, Step(c, s, call).1))
  {
    match call
    case CallConnect(_, _, _, _, _) => ConnectTracks(c, s, h, call);
    case CallCreateOwner(_, _, _, _, _) => CreateOwnerTracks(c, s, h, call);
    case CallSignIn(_, _, _, _, _) => SignInTracks(c, s, h, call);
    case CallRestore(_, _, _) => RestoreTracks(c, s, h, call);
    case CallSignOut(_) => SignOutTracks(c, s, h, call);
    case CallForget(_) => SignOutTracks(c, s, h, call);
    case _ =>
  }

  lemma {:induction false} RunTracks(c: Suite, calls: seq<Call>)
    requires forall call | call in calls :: NothingRefused(call)
    ensures Tracks(Run(c, FRESH, calls), HistoryOf(c, calls))
  {
    if calls != [] {
      var n := |calls| - 1;
      RunTracks(c, calls[..n]);
      assert calls[n] in calls;
      StepTracks(c, Run(c, FRESH, calls[..n]), HistoryOf(c, calls[..n]), calls[n]);
    }
  }

  /** After any run of a fresh install with no refused store operation, restore answers Some(u) exactly when the
      latest login not followed by a sign-out or forget was u's, and the endpoint that login was connected to
      verifies against its identity and connects. */
  lemma RestoreAnswersHistory(c: Suite, calls: seq<Call>, net: Network, nonce: Bytes, faults: Faults)
    requires forall call | call in calls :: NothingRefused(call)
    requires forall i :: !faults(i)
    ensures Restore(c, Run(c, FRESH, calls), net, nonce, faults).1 == Ok(Predicted(c, HistoryOf(c, calls), net, nonce))
  {
    hide Run, HistoryOf, Tracks, Predicted, Restore;
    RunTracks(c, calls);
    RestoreTracks(c, Run(c, FRESH, calls), HistoryOf(c, calls), CallRestore(net, nonce, faults));
  }
}
