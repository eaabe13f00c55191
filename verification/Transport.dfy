/** Finding a server and anchoring trust in it (src/transport/mod.rs). */
module Transport {
  import opened Common
  import opened Primitives
  import opened Discovery

  /** A connected gRPC channel, named by what it reaches. */
  datatype Channel = Channel(peer: nat)

  datatype AccountSession = AccountSession(channel: Channel, token: string)

  datatype RpcError = Unauthenticated | OtherFailure

  /** The outside world of one call: what a discovery fetch and a gRPC dial would give, per host and port. */
  datatype Network = Network(fetch: (string, Port) -> Option<DiscoveryResponse>,
                             dial: (string, Port) -> Option<Channel>)

  datatype ConnectError = DiscoveryFailed(error: DiscoveryError) | DialFailed | IdentityChanged

  function FetchAndVerify(c: Suite, net: Network, nonce: Bytes, host: string, port: Port)
    : Result<VerifiedServer, DiscoveryError>
  {
    match net.fetch(host, port)
    case None => Err(Fetch)
    case Some(response) => VerifyDiscovery(c, response, nonce)
  }

  /** Discover and verify, check the pin, then dial the advertised port on the same host. */
  function DiscoverAndConnect(c: Suite, net: Network, nonce: Bytes, host: string, port: Port, pinned: Option<Bytes>)
    : (r: Result<(Channel, VerifiedServer, TrustDecision), ConnectError>)
    ensures r.Ok? ==> |r.value.1.identityPublic| == 32
    ensures r.Ok? ==> pinned == None || pinned == Some(r.value.1.identityPublic)
    ensures r.Ok? ==> (r.value.2 == FirstContact <==> pinned == None)
  {
    match FetchAndVerify(c, net, nonce, host, port)
    case Err(e) => Err(DiscoveryFailed(e))
    case Ok(verified) =>
      var decision := CheckPin(verified, pinned);
      if decision == Mismatch then Err(IdentityChanged)
      else match net.dial(host, verified.grpcPort)
        case None => Err(DialFailed)
        case Some(channel) => Ok((channel, verified, decision))
  }
}
