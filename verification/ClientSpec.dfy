/** Every client call (src/client.rs) as a step on the client's state: the in-memory part and the vault. */
module ClientSpec {
  import opened Common
  import opened Primitives
  import opened Crypto
  import opened Discovery
  import opened Endpoint
  import opened Storage
  import opened Transport
  import opened Flows
  import SecretKeyCodec

  datatype ClientError =
    | NotConnected
    | NotSignedIn
    | ConnectFailed
    | IdentityMismatch
    | CryptoRefused
    | SecretKeyRequired
    | StorageFailed
    | ServerFailed

  datatype TrustStatus = FirstTime | Trusted

  datatype ConnectInfo = ConnectInfo(serverName: Bytes, identityFingerprint: Bytes, grpcPort: Port, trust: TrustStatus)

  datatype Enrollment = Enrollment(userId: string, secretKey: string)

  datatype SignInOutcome = Success(userId: string) | MfaNeeded

  datatype Inner = Inner(
    channel: Option<Channel>,
    verified: Option<VerifiedServer>,
    endpoints: seq<string>,
    session: Option<AccountSession>,
    identity: Option<Identity>,
    secretKey: Option<Bytes>)

  const INNER_DEFAULT: Inner := Inner(None, None, [], None, None, None)

  datatype State = State(inner: Inner, vault: Entries)

  // ---- persist ----

  datatype ToCache = ToCache(
    identityPublic: Bytes, userId: string, token: string, masterKey: Bytes, secretKey: Bytes,
    deviceSecret: Option<Bytes>, endpoints: seq<string>)

  /** What `persist` writes, in its order: keys before the token, the profile last. */
  function PersistWrites(d: ToCache): seq<(Entry, Blob)> {
    [(MasterKey, Raw(d.masterKey)), (SecretKey, Raw(d.secretKey)), (SessionToken, Text(d.token))]
    + (if d.deviceSecret.Some? then [(DeviceSecret, Raw(d.deviceSecret.value))] else [])
    + [(Profile, Json(ProfileOf(d)))]
  }

  /** The login that each entry of a vault comes from; None for an entry that is not there. */
  datatype Origins = Origins(
    masterKey: Option<ToCache>, secretKey: Option<ToCache>, token: Option<ToCache>, profile: Option<ToCache>)

  /** The vault's entries, the device secret aside, are those of these logins. */
  predicate Holds(v: Entries, o: Origins) {
    && Stores(v, MasterKey, if o.masterKey.Some? then Some(Raw(o.masterKey.value.masterKey)) else None)
    && Stores(v, SecretKey, if o.secretKey.Some? then Some(Raw(o.secretKey.value.secretKey)) else None)
    && Stores(v, SessionToken, if o.token.Some? then Some(Text(o.token.value.token)) else None)
    && Stores(v, Profile, if o.profile.Some? then Some(Json(ProfileOf(o.profile.value))) else None)
  }

  predicate Stores(v: Entries, entry: Entry, value: Option<Blob>) {
    match value
    case None => entry !in v
    case Some(blob) => entry in v && v[entry] == blob
  }

  function ProfileOf(d: ToCache): ServerProfile { ServerProfile(d.endpoints, d.identityPublic, d.userId) }

  // ---- Calls ----

  function MapConnectError(e: ConnectError): ClientError {
    match e
    case IdentityChanged => IdentityMismatch
    case DiscoveryFailed(_) => ConnectFailed
    case DialFailed => ConnectFailed
  }

  function MapEnrollError(e: EnrollError): ClientError {
    match e
    case CryptoFailed(_) => CryptoRefused
    case TransportFailed => ServerFailed
    case EmptyLogin => ServerFailed
    case MfaRequired => ServerFailed
  }

  function Connect(c: Suite, s: State, host: string, port: Port, net: Network, nonce: Bytes, faults: Faults)
    : (State, Result<ConnectInfo, ClientError>)
  {
    match ReadProfile(s.vault, faults(0))
    case Err(_) => (s, Err(StorageFailed))
    case Ok(profile) =>
      var pinned := if profile.Some? then Some(profile.value.identityPublic) else None;
      match DiscoverAndConnect(c, net, nonce, host, port, pinned)
      case Err(e) => (s, Err(MapConnectError(e)))
      case Ok((channel, verified, decision)) =>
        var info := ConnectInfo(verified.name, Hex(verified.identityPublic), verified.grpcPort,
                                if decision == FirstContact then FirstTime else Trusted);
        (s.(inner := s.inner.(endpoints := [FormatEndpoint(host, port)], verified := Some(verified),
                              channel := Some(channel))),
         Ok(info))
  }

  /** What `create_owner` sends, if it gets that far. */
  function OwnerUploadOf(c: Suite, s: State, e: FreshEntropy, deviceSecret: Bytes, password: Bytes)
    : Option<OwnerUpload>
  {
    if s.inner.channel.None? || s.inner.verified.None? then None
    else OwnerRequest(c, e, deviceSecret, password, DEFAULT_PARAMS).ToOption()
  }

  function CreateOwner(c: Suite, s: State, e: FreshEntropy, deviceSecret: Bytes, password: Bytes,
                       answer: Result<Session, RpcError>, faults: Faults)
    : (State, Result<Enrollment, ClientError>)
  {
    if s.inner.channel.None? || s.inner.verified.None? then (s, Err(NotConnected))
    else match EnrollNewOwner(c, e, password, DEFAULT_PARAMS, answer)
      case Err(error) => (s, Err(MapEnrollError(error)))
      case Ok(enrolled) =>
        var cache := ToCache(s.inner.verified.value.identityPublic, enrolled.userId, enrolled.token,
                             enrolled.identity.masterKey, enrolled.secretKey, Some(deviceSecret), s.inner.endpoints);
        var (vault, ok) := WriteAll(s.vault, PersistWrites(cache), faults, 0);
        if !ok then (s.(vault := vault), Err(StorageFailed))
        else
          (State(s.inner.(session := Some(AccountSession(s.inner.channel.value, enrolled.token)),
                          identity := Some(enrolled.identity), secretKey := Some(enrolled.secretKey)), vault),
           Ok(Enrollment(enrolled.userId, SecretKeyCodec.Display(enrolled.secretKey))))
  }

  /** The Secret Key a sign-in uses: the one typed, or the cached one. */
  function ResolveSecretKey(s: State, typed: Option<string>, refused: bool): (r: Result<Bytes, ClientError>)
    ensures r.Ok? ==> |r.value| == SECRET_KEY_LEN
  {
    match typed
    case Some(text) => (match SecretKeyCodec.Parse(text) case Err(_) => Err(CryptoRefused) case Ok(key) => Ok(key))
    case None =>
      match ReadSecretKey(s.vault, refused)
      case Err(_) => Err(StorageFailed)
      case Ok(None) => Err(SecretKeyRequired)
      case Ok(Some(key)) => Ok(key)
  }

  function SignIn(c: Suite, s: State, password: Bytes, typed: Option<string>,
                  login: Result<LoginOutcome, RpcError>, material: Result<KeyMaterial, RpcError>, faults: Faults)
    : (State, Result<SignInOutcome, ClientError>)
  {
    match ResolveSecretKey(s, typed, faults(0))
    case Err(e) => (s, Err(e))
    case Ok(resolved) =>
      if s.inner.channel.None? || s.inner.verified.None? then (s, Err(NotConnected))
      else match Login(c, login, material, password, resolved)
        case Err(MfaRequired) => (s, Ok(MfaNeeded))
        case Err(error) => (s, Err(MapEnrollError(error)))
        case Ok(loggedIn) =>
          var cache := ToCache(s.inner.verified.value.identityPublic, loggedIn.userId, loggedIn.token,
                               loggedIn.identity.masterKey, resolved, None, s.inner.endpoints);
          var (vault, ok) := WriteAll(s.vault, PersistWrites(cache), faults, 1);
          if !ok then (s.(vault := vault), Err(StorageFailed))
          else
            (State(s.inner.(session := Some(AccountSession(s.inner.channel.value, loggedIn.token)),
                            identity := Some(loggedIn.identity), secretKey := Some(resolved)), vault),
             Ok(Success(loggedIn.userId)))
  }

  function EnrollDevice(s: State, deviceSecret: Bytes, answer: Result<(), RpcError>, faults: Faults)
    : (State, Result<(), ClientError>)
  {
    if s.inner.session.None? then (s, Err(NotSignedIn))
    else if answer.Err? then (s, Err(ServerFailed))
    else if faults(0) then (s, Err(StorageFailed))
    else (s.(vault := s.vault[DeviceSecret := Raw(deviceSecret)]), Ok(()))
  }

  /** What `change_password` sends once the local check has passed. */
  datatype ChangeRequest = ChangeRequest(currentPassword: Bytes, newPassword: Bytes, rewrapped: RewrappedMaster)

  /** The local check, unlocking the fetched bundle with the current password, and the rewrap. */
  function RewrapFor(c: Suite, secretKey: Bytes, current: Bytes, newPassword: Bytes, material: KeyMaterial,
                     salt: Bytes, nonce: Bytes): Result<ChangeRequest, ClientError>
  {
    match Unlock(c, KeyMaterialToBundle(material), current, secretKey)
    case Err(_) => Err(CryptoRefused)
    case Ok(unlocked) =>
      match Rewrap(c, unlocked.masterKey, secretKey, newPassword, DEFAULT_PARAMS, salt, nonce)
      case Err(_) => Err(CryptoRefused)
      case Ok(rewrapped) => Ok(ChangeRequest(current, newPassword, rewrapped))
  }

  /** `change_password` up to its RPC. */
  function PrepareChange(c: Suite, s: State, current: Bytes, newPassword: Bytes,
                         material: Result<KeyMaterial, RpcError>, salt: Bytes, nonce: Bytes, faults: Faults)
    : Result<ChangeRequest, ClientError>
  {
    match ReadSecretKey(s.vault, faults(0))
    case Err(_) => Err(StorageFailed)
    case Ok(None) => Err(SecretKeyRequired)
    case Ok(Some(secretKey)) =>
      if s.inner.session.None? then Err(NotSignedIn)
      else match material
        case Err(_) => Err(ServerFailed)
        case Ok(m) => RewrapFor(c, secretKey, current, newPassword, m, salt, nonce)
  }

  function MapChangePasswordError(e: RpcError): ClientError {
    match e
    case Unauthenticated => CryptoRefused
    case OtherFailure => ServerFailed
  }

  /** `change_password`: it writes nothing locally. */
  function ChangePassword(c: Suite, s: State, current: Bytes, newPassword: Bytes,
                          material: Result<KeyMaterial, RpcError>, salt: Bytes, nonce: Bytes,
                          answer: Result<(), RpcError>, faults: Faults)
    : Result<(), ClientError>
  {
    match PrepareChange(c, s, current, newPassword, material, salt, nonce, faults)
    case Err(e) => Err(e)
    case Ok(_) =>
      match answer
      case Ok(_) => Ok(())
      case Err(e) => Err(MapChangePasswordError(e))
  }

  /** The cached master key that the avatar calls need. */
  function CachedMasterKey(s: State, refused: bool): (r: Result<Bytes, ClientError>)
    ensures r.Ok? ==> |r.value| == KEY_LEN
  {
    match ReadMasterKey(s.vault, refused)
    case Err(_) => Err(StorageFailed)
    case Ok(None) => Err(NotSignedIn)
    case Ok(Some(key)) => Ok(key)
  }

  /** `set_avatar` up to its RPC. */
  function SealAvatar(c: Suite, s: State, png: Bytes, nonce: Bytes, faults: Faults): Result<Bytes, ClientError> {
    var master :- CachedMasterKey(s, faults(0));
    match Seal(c, master, nonce, png)
    case Err(_) => Err(CryptoRefused)
    case Ok(sealed) => if s.inner.session.None? then Err(NotSignedIn) else Ok(sealed)
  }

  function SetAvatar(c: Suite, s: State, png: Bytes, nonce: Bytes, answer: Result<(), RpcError>, faults: Faults)
    : Result<(), ClientError>
  {
    match SealAvatar(c, s, png, nonce, faults)
    case Err(e) => Err(e)
    case Ok(_) => if answer.Ok? then Ok(()) else Err(ServerFailed)
  }

  /** What `get_avatar` makes of the server's answer; it says "unset" with empty bytes. */
  function OpenAvatar(c: Suite, master: Bytes, answer: Result<Bytes, RpcError>): Result<Option<Bytes>, ClientError> {
    match answer
    case Err(_) => Err(ServerFailed)
    case Ok(blob) =>
      if blob == [] then Ok(None)
      else match Open(c, master, blob)
        case Err(_) => Err(CryptoRefused)
        case Ok(png) => Ok(Some(png))
  }

  function GetAvatar(c: Suite, s: State, answer: Result<Bytes, RpcError>, faults: Faults)
    : Result<Option<Bytes>, ClientError>
  {
    var master :- CachedMasterKey(s, faults(0));
    if s.inner.session.None? then Err(NotSignedIn) else OpenAvatar(c, master, answer)
  }

  function SignOut(s: State, faults: Faults): (State, Result<(), ClientError>) {
    var (vault, ok) := DeleteAll(s.vault, CLEAR_SESSION_ORDER, faults, 0);
    if ok then (State(INNER_DEFAULT, vault), Ok(())) else (s.(vault := vault), Err(StorageFailed))
  }

  function ForgetServer(s: State, faults: Faults): (State, Result<(), ClientError>) {
    var (vault, ok) := DeleteAll(s.vault, CLEAR_ORDER, faults, 0);
    if ok then (State(INNER_DEFAULT, vault), Ok(())) else (s.(vault := vault), Err(StorageFailed))
  }

  /** What `restore` resumes from a cached profile and token, if the server can be reached and verified. */
  function Resume(c: Suite, inner: Inner, profile: ServerProfile, token: string, net: Network, nonce: Bytes)
    : Option<Inner>
  {
    if profile.endpoints == [] then None
    else match SplitEndpoint(profile.endpoints[0])
      case None => None
      case Some((host, port)) =>
        match DiscoverAndConnect(c, net, nonce, host, port, Some(profile.identityPublic))
        case Err(_) => None
        case Ok((channel, verified, _)) =>
          Some(inner.(endpoints := profile.endpoints, session := Some(AccountSession(channel, token)),
                      verified := Some(verified), channel := Some(channel)))
  }

  function Restore(c: Suite, s: State, net: Network, nonce: Bytes, faults: Faults)
    : (State, Result<Option<string>, ClientError>)
  {
    match ReadProfile(s.vault, faults(0))
    case Err(_) => (s, Err(StorageFailed))
    case Ok(None) => (s, Ok(None))
    case Ok(Some(profile)) =>
      match ReadSessionToken(s.vault, faults(1))
      case Err(_) => (s, Err(StorageFailed))
      case Ok(None) => (s, Ok(None))
      case Ok(Some(token)) =>
        match Resume(c, s.inner, profile, token, net, nonce)
        case None => (s, Ok(None))
        case Some(inner) => (s.(inner := inner), Ok(Some(profile.userId)))
  }
}
