/** Enrollment and sign-in (src/flows.rs): server answers composed with the local key hierarchy. */
module Flows {
  import opened Common
  import opened Primitives
  import opened Crypto
  import opened Transport

  datatype Session = Session(token: string, userId: string)

  datatype LoginOutcome = SessionGranted(session: Session) | MfaDemanded | NoOutcome

  /** The wire form of a key bundle. */
  datatype KeyMaterial = KeyMaterial(
    x25519Public: Bytes,
    ed25519Public: Bytes,
    x25519PrivateWrapped: Bytes,
    ed25519PrivateWrapped: Bytes,
    masterKeyWrapped: Bytes,
    kdfSalt: Bytes,
    kdfParams: ParamsText)

  datatype EnrollError = TransportFailed | CryptoFailed(error: CryptoError) | MfaRequired | EmptyLogin

  datatype EnrolledOwner = EnrolledOwner(token: string, userId: string, secretKey: Bytes, identity: Identity)

  datatype LoggedIn = LoggedIn(token: string, userId: string, identity: Identity)

  function BundleToKeyMaterial(b: KeyBundle): KeyMaterial {
    KeyMaterial(b.x25519Public, b.ed25519Public, b.x25519PrivateWrapped, b.ed25519PrivateWrapped, b.masterKeyWrapped,
                b.kdfSalt, b.kdfParams)
  }

  function KeyMaterialToBundle(m: KeyMaterial): KeyBundle {
    KeyBundle(m.x25519Public, m.ed25519Public, m.x25519PrivateWrapped, m.ed25519PrivateWrapped, m.masterKeyWrapped,
              m.kdfSalt, m.kdfParams)
  }

  /** The bundle survives the wire in both directions. */
  lemma BridgeRoundTrip(b: KeyBundle, m: KeyMaterial)
    ensures KeyMaterialToBundle(BundleToKeyMaterial(b)) == b && BundleToKeyMaterial(KeyMaterialToBundle(m)) == m
  {
  }

  /** What a bootstrap request carries: the wrapped keys and the new device's public key. */
  datatype OwnerUpload = OwnerUpload(password: Bytes, material: KeyMaterial, devicePublic: Bytes)

  function OwnerRequest(c: Suite, e: FreshEntropy, deviceSecret: Bytes, password: Bytes, params: KdfParams)
    : Result<OwnerUpload, CryptoError>
  {
    var boot :- Bootstrap(c, e, password, params);
    Ok(OwnerUpload(password, BundleToKeyMaterial(boot.bundle), c.x25519Public(deviceSecret)))
  }

  /** Key material is generated locally first; `answer` is the server's reply to the bootstrap request. */
  function EnrollNewOwner(c: Suite, e: FreshEntropy, password: Bytes, params: KdfParams,
                          answer: Result<Session, RpcError>)
    : Result<EnrolledOwner, EnrollError>
  {
    match Bootstrap(c, e, password, params)
    case Err(error) => Err(CryptoFailed(error))
    case Ok(boot) =>
      match answer
      case Err(_) => Err(TransportFailed)
      case Ok(session) => Ok(EnrolledOwner(session.token, session.userId, boot.secretKey, boot.identity))
  }

  /** `enroll_new_owner_with_params` with the request it sends, None if the key material could not be made. */
  method SendEnrollment(c: Suite, e: FreshEntropy, deviceSecret: Bytes, password: Bytes, params: KdfParams,
                        answer: Result<Session, RpcError>)
    returns (r: Result<EnrolledOwner, EnrollError>, sent: Option<OwnerUpload>)
    ensures r == EnrollNewOwner(c, e, password, params, answer)
    ensures sent == OwnerRequest(c, e, deviceSecret, password, params).ToOption()
  {
    var boot := Bootstrap(c, e, password, params);
    if boot.Err? {
      return Err(CryptoFailed(boot.error)), None;
    }
    sent := Some(OwnerUpload(password, BundleToKeyMaterial(boot.value.bundle), c.x25519Public(deviceSecret)));
    if answer.Err? {
      return Err(TransportFailed), sent;
    }
    r := Ok(EnrolledOwner(answer.value.token, answer.value.userId, boot.value.secretKey, boot.value.identity));
  }

  /** Authenticate, fetch the wrapped keys, unlock them locally. */
  function Login(c: Suite, login: Result<LoginOutcome, RpcError>, material: Result<KeyMaterial, RpcError>,
                 password: Bytes, secretKey: Bytes)
    : (r: Result<LoggedIn, EnrollError>)
    ensures r.Ok? ==> r.value.identity.WellSized()
  {
    match login
    case Err(_) => Err(TransportFailed)
    case Ok(MfaDemanded) => Err(MfaRequired)
    case Ok(NoOutcome) => Err(EmptyLogin)
    case Ok(SessionGranted(session)) =>
      match material
      case Err(_) => Err(TransportFailed)
      case Ok(m) =>
        match Unlock(c, KeyMaterialToBundle(m), password, secretKey)
        case Err(error) => Err(CryptoFailed(error))
        case Ok(identity) => Ok(LoggedIn(session.token, session.userId, identity))
  }
}
