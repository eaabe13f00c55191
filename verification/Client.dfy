/** The stateful client handle (src/client.rs): `Inner`'s fields and the vault, updated in place. Each method
    takes what the network and the store backend answer, and is proved equal to its step in `ClientSpec`. */
module ClientFacade {
  import opened Common
  import opened Primitives
  import opened Crypto
  import opened Discovery
  import opened Endpoint
  import opened Storage
  import opened Transport
  import opened Flows
  import opened ClientSpec

  class Client {
    var channel: Option<Channel>
    var verified: Option<VerifiedServer>
    var endpoints: seq<string>
    var session: Option<AccountSession>
    var identity: Option<Identity>
    var secretKey: Option<Bytes>
    const vault: Vault

    function Abs(): State
      reads this, vault
    {
      State(Inner(channel, verified, endpoints, session, identity, secretKey), vault.entries)
    }

    constructor (store: Vault)
      ensures vault == store && Abs() == State(INNER_DEFAULT, store.entries)
    {
      channel, verified, endpoints, session, identity, secretKey := None, None, [], None, None, None;
      vault := store;
    }

    /** `*inner = Inner::default()`. */
    method Reset()
      modifies this
      ensures Abs() == old(Abs()).(inner := INNER_DEFAULT)
    {
      channel, verified, endpoints, session, identity, secretKey := None, None, [], None, None, None;
    }

    /** Caches the post-auth state: keys before the token, the profile last; stops at the first refusal. */
    method Persist(data: ToCache, faults: Faults, at: nat) returns (ok: bool)
      modifies vault
      ensures (vault.entries, ok) == WriteAll(old(vault.entries), PersistWrites(data), faults, at)
    {
      var writes := PersistWrites(data);
      for i := 0 to |writes|
        invariant WriteAll(old(vault.entries), writes, faults, at) ==
                  WriteAll(vault.entries, writes[i..], faults, at + i)
      {
        assert writes[i..][1..] == writes[i + 1..];
        var written := vault.Set(writes[i].0, writes[i].1, faults(at + i));
        if !written {
          return false;
        }
      }
      ok := true;
    }

    method Connect(c: Suite, host: string, port: Port, net: Network, nonce: Bytes, faults: Faults)
      returns (r: Result<ConnectInfo, ClientError>)
      modifies this
      ensures (Abs(), r) == ClientSpec.Connect(c, old(Abs()), host, port, net, nonce, faults)
    {
      var profile := ReadProfile(vault.entries, faults(0));
      if profile.Err? {
        return Err(StorageFailed);
      }
      var pinned := if profile.value.Some? then Some(profile.value.value.identityPublic) else None;
      var connected := DiscoverAndConnect(c, net, nonce, host, port, pinned);
      if connected.Err? {
        return Err(MapConnectError(connected.error));
      }
      var (channel', verified', decision) := connected.value;
      var fingerprint := EncodeHex(verified'.identityPublic);
      endpoints := [FormatEndpoint(host, port)];
      verified := Some(verified');
      channel := Some(channel');
      r := Ok(ConnectInfo(verified'.name, fingerprint, verified'.grpcPort,
                          if decision == FirstContact then FirstTime else Trusted));
    }

    /** `sent` is what goes to the server, None if the call fails before that. */
    method CreateOwner(c: Suite, e: FreshEntropy, deviceSecret: Bytes, password: Bytes,
                       answer: Result<Session, RpcError>, faults: Faults)
      returns (r: Result<Enrollment, ClientError>, sent: Option<OwnerUpload>)
      modifies this, vault
      ensures (Abs(), r) == ClientSpec.CreateOwner(c, old(Abs()), e, deviceSecret, password, answer, faults)
      ensures sent == OwnerUploadOf(c, old(Abs()), e, deviceSecret, password)
    {
      if channel.None? || verified.None? {
        return Err(NotConnected), None;
      }
      var result;
      result, sent := SendEnrollment(c, e, deviceSecret, password, DEFAULT_PARAMS, answer);
      if result.Err? {
        return Err(MapEnrollError(result.error)), sent;
      }
      var enrolled := result.value;
      var cache := ToCache(verified.value.identityPublic, enrolled.userId, enrolled.token,
                           enrolled.identity.masterKey, enrolled.secretKey, Some(deviceSecret), endpoints);
      var persisted := Persist(cache, faults, 0);
      if !persisted {
        return Err(StorageFailed), sent;
      }
      session := Some(AccountSession(channel.value, enrolled.token));
      identity := Some(enrolled.identity);
      secretKey := Some(enrolled.secretKey);
      r := Ok(Enrollment(enrolled.userId, SecretKeyCodec.Display(enrolled.secretKey)));
    }

    method SignIn(c: Suite, password: Bytes, typed: Option<string>, login: Result<LoginOutcome, RpcError>,
                  material: Result<KeyMaterial, RpcError>, faults: Faults)
      returns (r: Result<SignInOutcome, ClientError>)
      modifies this, vault
      ensures (Abs(), r) == ClientSpec.SignIn(c, old(Abs()), password, typed, login, material, faults)
    {
      var resolved := ResolveSecretKey(Abs(), typed, faults(0));
      if resolved.Err? {
        return Err(resolved.error);
      }
      if channel.None? || verified.None? {
        return Err(NotConnected);
      }
      var result := Login(c, login, material, password, resolved.value);
      if result == Err(MfaRequired) {
        return Ok(MfaNeeded);
      }
      if result.Err? {
        return Err(MapEnrollError(result.error));
      }
      var loggedIn := result.value;
      var cache := ToCache(verified.value.identityPublic, loggedIn.userId, loggedIn.token,
                           loggedIn.identity.masterKey, resolved.value, None, endpoints);
      var persisted := Persist(cache, faults, 1);
      if !persisted {
        return Err(StorageFailed);
      }
      session := Some(AccountSession(channel.value, loggedIn.token));
      identity := Some(loggedIn.identity);
      secretKey := Some(resolved.value);
      r := Ok(Success(loggedIn.userId));
    }

    /** `sent` is the public key registered with the server: the one of the secret that is then stored. */
    method EnrollThisDevice(c: Suite, deviceSecret: Bytes, answer: Result<(), RpcError>, faults: Faults)
      returns (r: Result<(), ClientError>, sent: Option<Bytes>)
      modifies vault
      ensures (Abs(), r) == ClientSpec.EnrollDevice(old(Abs()), deviceSecret, answer, faults)
      ensures sent == if session.Some? then Some(c.x25519Public(deviceSecret)) else None
    {
      if session.None? {
        return Err(NotSignedIn), None;
      }
      sent := Some(c.x25519Public(deviceSecret));
      if answer.Err? {
        return Err(ServerFailed), sent;
      }
      var stored := vault.Set(DeviceSecret, Raw(deviceSecret), faults(0));
      r := if stored then Ok(()) else Err(StorageFailed);
    }

    /** It changes nothing here: the master key and the Secret Key stay what they are. `sent` is the request that
        goes to the server, None if the call fails before that. */
    method ChangePassword(c: Suite, current: Bytes, newPassword: Bytes, material: Result<KeyMaterial, RpcError>,
                          salt: Bytes, nonce: Bytes, answer: Result<(), RpcError>, faults: Faults)
      returns (r: Result<(), ClientError>, sent: Option<ChangeRequest>)
      ensures r == ClientSpec.ChangePassword(c, Abs(), current, newPassword, material, salt, nonce, answer, faults)
      ensures sent == PrepareChange(c, Abs(), current, newPassword, material, salt, nonce, faults).ToOption()
    {
      sent := None;
      var cached := ReadSecretKey(vault.entries, faults(0));
      if cached.Err? {
        return Err(StorageFailed), None;
      }
      if cached.value.None? {
        return Err(SecretKeyRequired), None;
      }
      if session.None? {
        return Err(NotSignedIn), None;
      }
      if material.Err? {
        return Err(ServerFailed), None;
      }
      var unlocked := Unlock(c, KeyMaterialToBundle(material.value), current, cached.value.value);
      if unlocked.Err? {
        return Err(CryptoRefused), None;
      }
      var rewrapped := Rewrap(c, unlocked.value.masterKey, cached.value.value, newPassword, DEFAULT_PARAMS,
                              salt, nonce);
      if rewrapped.Err? {
        return Err(CryptoRefused), None;
      }
      sent := Some(ChangeRequest(current, newPassword, rewrapped.value));
      r := if answer.Ok? then Ok(()) else Err(MapChangePasswordError(answer.error));
    }

    method GetAvatar(c: Suite, answer: Result<Bytes, RpcError>, faults: Faults)
      returns (r: Result<Option<Bytes>, ClientError>)
      ensures r == ClientSpec.GetAvatar(c, Abs(), answer, faults)
    {
      var master := ReadMasterKey(vault.entries, faults(0));
      if master.Err? {
        return Err(StorageFailed);
      }
      if master.value.None? || session.None? {
        return Err(NotSignedIn);
      }
      if answer.Err? {
        return Err(ServerFailed);
      }
      if answer.value == [] {
        return Ok(None);
      }
      var png := Open(c, master.value.value, answer.value);
      r := if png.Ok? then Ok(Some(png.value)) else Err(CryptoRefused);
    }

    /** `sent` is the sealed image that goes to the server, None if the call fails before that. */
    method SetAvatar(c: Suite, png: Bytes, nonce: Bytes, answer: Result<(), RpcError>, faults: Faults)
      returns (r: Result<(), ClientError>, sent: Option<Bytes>)
      ensures r == ClientSpec.SetAvatar(c, Abs(), png, nonce, answer, faults)
      ensures sent == SealAvatar(c, Abs(), png, nonce, faults).ToOption()
    {
      sent := None;
      var master := ReadMasterKey(vault.entries, faults(0));
      if master.Err? {
        return Err(StorageFailed), None;
      }
      if master.value.None? {
        return Err(NotSignedIn), None;
      }
      var sealed := Seal(c, master.value.value, nonce, png);
      if sealed.Err? {
        return Err(CryptoRefused), None;
      }
      if session.None? {
        return Err(NotSignedIn), None;
      }
      sent := Some(sealed.value);
      r := if answer.Ok? then Ok(()) else Err(ServerFailed);
    }

    method SignOut(faults: Faults) returns (r: Result<(), ClientError>)
      modifies this, vault
      ensures (Abs(), r) == ClientSpec.SignOut(old(Abs()), faults)
    {
      var cleared := vault.ClearSession(faults);
      if !cleared {
        return Err(StorageFailed);
      }
      Reset();
      r := Ok(());
    }

    method ForgetServer(faults: Faults) returns (r: Result<(), ClientError>)
      modifies this, vault
      ensures (Abs(), r) == ClientSpec.ForgetServer(old(Abs()), faults)
    {
      var cleared := vault.Clear(faults);
      if !cleared {
        return Err(StorageFailed);
      }
      Reset();
      r := Ok(());
    }

    method Restore(c: Suite, net: Network, nonce: Bytes, faults: Faults)
      returns (r: Result<Option<string>, ClientError>)
      modifies this
      ensures (Abs(), r) == ClientSpec.Restore(c, old(Abs()), net, nonce, faults)
    {
      var read := ReadProfile(vault.entries, faults(0));
      if read.Err? {
        return Err(StorageFailed);
      }
      if read.value.None? {
        return Ok(None);
      }
      var profile := read.value.value;
      var token := ReadSessionToken(vault.entries, faults(1));
      if token.Err? {
        return Err(StorageFailed);
      }
      if token.value.None? || profile.endpoints == [] {
        return Ok(None);
      }
      var endpoint := SplitEndpoint(profile.endpoints[0]);
      if endpoint.None? {
        return Ok(None);
      }
      var (host, port) := endpoint.value;
      var connected := DiscoverAndConnect(c, net, nonce, host, port, Some(profile.identityPublic));
      if connected.Err? {
        return Ok(None);
      }
      var (channel', verified', _) := connected.value;
      endpoints := profile.endpoints;
      session := Some(AccountSession(channel', token.value.value));
      verified := Some(verified');
      channel := Some(channel');
      r := Ok(Some(profile.userId));
    }
  }
}
