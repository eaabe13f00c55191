/** Server discovery (src/transport/discovery.rs): the canonical signed bytes, the hex codec, verification and
    the trust-on-first-use check. Text is its UTF-8 bytes, as the source's length checks and slices see it. */
module Discovery {
  import opened Common
  import opened Primitives

  const PAYLOAD_VERSION: nat := 1

  /** ASCII bytes of "sylva.discovery.v1". */
  const DOMAIN: Bytes := [115, 121, 108, 118, 97, 46, 100, 105, 115, 99, 111, 118, 101, 114, 121, 46, 118, 49]

  datatype DiscoveryError =
    | UnsupportedVersion(version: nat)
    | NonceMismatch
    | MalformedField(what: string)
    | BadSignature
    | Fetch

  type Port = p: nat | p < 0x1_0000

  datatype DiscoveryResponse = DiscoveryResponse(
    name: Bytes,
    serverVersion: Bytes,
    grpcPort: Port,
    serverIdentityPublic: Bytes,
    nonce: Bytes,
    signature: Bytes,
    payloadVersion: nat)

  datatype VerifiedServer = VerifiedServer(identityPublic: Bytes, name: Bytes, serverVersion: Bytes, grpcPort: Port)

  datatype TrustDecision = FirstContact | Matches | Mismatch

  // ---- Canonical bytes ----

  /** `to_be_bytes` of a u32. */
  function U32Bytes(n: nat): (bytes: Bytes)
    requires n < 0x1_0000_0000
    ensures |bytes| == 4
  {
    [n / 0x100_0000, n / 0x1_0000 % 256, n / 256 % 256, n % 256]
  }

  /** `to_be_bytes` of a u16. */
  function U16Bytes(n: Port): (bytes: Bytes)
    ensures |bytes| == 2
  {
    [n / 256, n % 256]
  }

  /** A field with its length in front; `as u32` keeps only the low 32 bits of the length. */
  function Field(field: Bytes): Bytes { U32Bytes(|field| % 0x1_0000_0000) + field }

  function Canonical(nonce: Bytes, public: Bytes, grpcPort: Port, name: Bytes): Bytes {
    Field(DOMAIN) + Field(U32Bytes(PAYLOAD_VERSION)) + Field(nonce) + Field(public) + Field(U16Bytes(grpcPort))
    + Field(name)
  }

  /** Appends one field to the buffer. */
  method PushField(out: Bytes, field: Bytes) returns (out': Bytes)
    ensures out' == out + Field(field)
  {
    out' := out + U32Bytes(|field| % 0x1_0000_0000);
    out' := out' + field;
    assert out + U32Bytes(|field| % 0x1_0000_0000) + field == out + Field(field);
  }

  /** The exact bytes the server signed. */
  method CanonicalBytes(nonce: Bytes, public: Bytes, grpcPort: Port, name: Bytes) returns (out: Bytes)
    ensures out == Canonical(nonce, public, grpcPort, name)
  {
    out := PushField([], DOMAIN);
    out := PushField(out, U32Bytes(PAYLOAD_VERSION));
    out := PushField(out, nonce);
    out := PushField(out, public);
    out := PushField(out, U16Bytes(grpcPort));
    out := PushField(out, name);
    assert [] + Field(DOMAIN) == Field(DOMAIN);
  }

  // ---- Hex ----

  /** A lower-case hexadecimal digit. */
  function HexDigit(n: nat): Byte
    requires n < 16
  {
    if n < 10 then 48 + n else 87 + n
  }

  function Hex(bytes: Bytes): (s: Bytes)
    ensures |s| == 2 * |bytes|
  {
    if bytes == [] then []
    else
      var b := bytes[|bytes| - 1];
      Hex(bytes[..|bytes| - 1]) + [HexDigit(b / 16), HexDigit(b % 16)]
  }

  method EncodeHex(bytes: Bytes) returns (s: Bytes)
    ensures s == Hex(bytes)
  {
    s := [];
    for i := 0 to |bytes|
      invariant s == Hex(bytes[..i])
    {
      assert bytes[..i + 1][..i] == bytes[..i];
      s := s + [HexDigit(bytes[i] / 16)];
      s := s + [HexDigit(bytes[i] % 16)];
    }
    assert bytes[..|bytes|] == bytes;
  }

  /** `char::to_digit(16)` on one byte. */
  function ToDigit(b: Byte): Option<nat> {
    if 48 <= b <= 57 then Some(b - 48)
    else if 97 <= b <= 102 then Some(b - 87)
    else if 65 <= b <= 70 then Some(b - 55)
    else None
  }

  /** `str::is_char_boundary`: the ends, and every byte that does not continue a UTF-8 character. */
  predicate IsCharBoundary(s: Bytes, i: nat) {
    i == 0 || i == |s| || (i < |s| && (s[i] < 128 || s[i] >= 192))
  }

  /** `u8::from_str_radix(_, 16)` on two bytes: a leading '+' is allowed. */
  function FromStrRadix16(a: Byte, b: Byte): (r: Option<Byte>) {
    match (ToDigit(a), ToDigit(b))
    case (Some(high), Some(low)) => Some(16 * high + low)
    case (None, Some(low)) => if a == 43 then Some(low) else None
    case _ => None
  }

  /** Byte i of a hex string: None if the slice splits a character or does not parse. */
  function HexByteAt(s: Bytes, i: nat): Option<Byte>
    requires 2 * i + 2 <= |s|
  {
    if IsCharBoundary(s, 2 * i) && IsCharBoundary(s, 2 * i + 2) then FromStrRadix16(s[2 * i], s[2 * i + 1])
    else None
  }

  predicate IsHexArray(s: Bytes, n: nat) {
    |s| == 2 * n && forall i | 0 <= i < n :: HexByteAt(s, i).Some?
  }

  function HexArray(s: Bytes, n: nat): (r: Option<Bytes>)
    ensures r.Some? ==> |r.value| == n
  {
    if IsHexArray(s, n) then Some(seq(n, i requires 0 <= i < n => HexByteAt(s, i).value)) else None
  }

  /** Decodes a hex string into n bytes, or None. */
  method DecodeHexArray(s: Bytes, n: nat) returns (r: Option<Bytes>)
    ensures r == HexArray(s, n)
  {
    if |s| != n * 2 {
      return None;
    }
    var out := new Byte[n](_ => 0);
    for i := 0 to n
      invariant forall j | 0 <= j < i :: HexByteAt(s, j) == Some(out[j])
    {
      var b := HexByteAt(s, i);
      if b.None? {
        return None;
      }
      out[i] := b.value;
    }
    assert out[..] == HexArray(s, n).value;
    r := Some(out[..]);
  }

  // ---- Verification ----

  function VerifyDiscovery(c: Suite, resp: DiscoveryResponse, expectedNonce: Bytes)
    : Result<VerifiedServer, DiscoveryError>
  {
    if resp.payloadVersion != PAYLOAD_VERSION then Err(UnsupportedVersion(resp.payloadVersion))
    else if resp.nonce != expectedNonce then Err(NonceMismatch)
    else match HexArray(resp.serverIdentityPublic, 32)
      case None => Err(MalformedField("server_identity_public"))
      case Some(identity) =>
        match HexArray(resp.signature, 64)
        case None => Err(MalformedField("signature"))
        case Some(signature) =>
          if !c.ed25519IsKey(identity) then Err(MalformedField("identity key"))
          else if !c.ed25519Verify(identity, Canonical(resp.nonce, identity, resp.grpcPort, resp.name), signature)
          then Err(BadSignature)
          else Ok(VerifiedServer(identity, resp.name, resp.serverVersion, resp.grpcPort))
  }

  function CheckPin(verified: VerifiedServer, pinned: Option<Bytes>): TrustDecision {
    match pinned
    case None => FirstContact
    case Some(pin) => if pin == verified.identityPublic then Matches else Mismatch
  }
}
