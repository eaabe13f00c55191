/** What discovery promises: an unambiguous signed encoding, and from it that what is accepted is what was signed. */
module DiscoveryLaws {
  import opened Common
  import opened Primitives
  import opened Discovery

  const TWO_32: nat := 0x1_0000_0000

  // ---- The encoding is unambiguous ----

  function U32Value(b: Bytes): nat
    requires |b| >= 4
  {
    var x0: int, x1: int, x2: int, x3: int := b[0], b[1], b[2], b[3];
    x0 * 0x100_0000 + x1 * 0x1_0000 + x2 * 256 + x3
  }

  /** Reads one length-prefixed field off the front. */
  function TakeField(bytes: Bytes): Option<(Bytes, Bytes)> {
    if |bytes| < 4 then None
    else
      var n := U32Value(bytes);
      if |bytes| < 4 + n then None else Some((bytes[4..4 + n], bytes[4 + n..]))
  }

  datatype Claim = Claim(nonce: Bytes, public: Bytes, grpcPort: Port, name: Bytes)

  function Encode(claim: Claim): Bytes { Canonical(claim.nonce, claim.public, claim.grpcPort, claim.name) }

  /** Reads k fields. */
  function TakeFields(bytes: Bytes, k: nat): (r: Option<(seq<Bytes>, Bytes)>)
    ensures r.Some? ==> |r.value.0| == k
    decreases k
  {
    if k == 0 then Some(([], bytes))
    else match TakeField(bytes)
      case None => None
      case Some((field, rest)) =>
        match TakeFields(rest, k - 1)
        case None => None
        case Some((fields, end)) => Some(([field] + fields, end))
  }

  /** Inverts `Canonical`: five length-prefixed fields, then a name that takes all the rest, whatever its
      length prefix says. */
  function Decode(bytes: Bytes): Option<Claim> {
    match TakeFields(bytes, 5)
    case None => None
    case Some((fields, rest)) =>
      if |fields[4]| != 2 || |rest| < 4 then None
      else
        var high: int, low: int := fields[4][0], fields[4][1];
        Some(Claim(fields[2], fields[3], 256 * high + low, rest[4..]))
  }

  /** The domain separator. */
  lemma DomainSpells()
    ensures DOMAIN == Ascii("sylva.discovery.v1")
  {
  }

  lemma U32RoundTrip(n: nat, rest: Bytes)
    requires n < TWO_32
    ensures U32Value(U32Bytes(n) + rest) == n
  {
    var b := U32Bytes(n);
    var b' := b + rest;
    FourDigits(n);
    assert b'[0] == b[0] && b'[1] == b[1] && b'[2] == b[2] && b'[3] == b[3];
  }

  lemma FourDigits(n: nat)
    ensures n / 0x100_0000 * 0x100_0000 + n / 0x1_0000 % 256 * 0x1_0000 + n / 256 % 256 * 256 + n % 256 == n
  {
    assert n / 0x1_0000 == n / 256 / 256 && n / 0x100_0000 == n / 0x1_0000 / 256;
  }

  lemma CutInThree(a: Bytes, b: Bytes, d: Bytes)
    ensures (a + (b + d))[|a|..|a| + |b|] == b && (a + (b + d))[|a| + |b|..] == d
  {
  }

  lemma TakeFieldOfField(field: Bytes, rest: Bytes)
    requires |field| < TWO_32
    ensures TakeField(Field(field) + rest) == Some((field, rest))
  {
    var n := |field|;
    var prefix := U32Bytes(n);
    hide U32Bytes, U32Value;
    assert Field(field) + rest == prefix + (field + rest);
    U32RoundTrip(n, field + rest);
    CutInThree(prefix, field, rest);
  }

  function Fields(fields: seq<Bytes>): Bytes {
    if fields == [] then [] else Field(fields[0]) + Fields(fields[1..])
  }

  lemma {:induction false} TakeFieldsOfFields(fields: seq<Bytes>, rest: Bytes)
    requires forall field | field in fields :: |field| < TWO_32
    ensures TakeFields(Fields(fields) + rest, |fields|) == Some((fields, rest))
  {
    hide Field, TakeField;
    if fields == [] {
      assert Fields(fields) + rest == rest;
    } else {
      var front, tail := Field(fields[0]), Fields(fields[1..]);
      assert front + tail + rest == front + (tail + rest);
      TakeFieldOfField(fields[0], tail + rest);
      TakeFieldsOfFields(fields[1..], rest);
      assert fields == [fields[0]] + fields[1..];
    }
  }

  lemma CanonicalIsFields(claim: Claim)
    ensures Encode(claim) ==
            Fields([DOMAIN, U32Bytes(PAYLOAD_VERSION), claim.nonce, claim.public, U16Bytes(claim.grpcPort)])
            + Field(claim.name)
  {
    hide Field, U32Bytes, U16Bytes;
    var a, b, d := Field(DOMAIN), Field(U32Bytes(PAYLOAD_VERSION)), Field(claim.nonce);
    var e, f := Field(claim.public), Field(U16Bytes(claim.grpcPort));
    FieldsOfFive(DOMAIN, U32Bytes(PAYLOAD_VERSION), claim.nonce, claim.public, U16Bytes(claim.grpcPort));
    assert a + b + d + e + f == a + (b + (d + (e + f)));
  }

  lemma FieldsOfFive(a: Bytes, b: Bytes, d: Bytes, e: Bytes, f: Bytes)
    ensures Fields([a, b, d, e, f]) == Field(a) + (Field(b) + (Field(d) + (Field(e) + Field(f))))
  {
    hide Field;
    var fs := [a, b, d, e, f];
    assert fs[1..] == [b, d, e, f] && fs[1..][1..] == [d, e, f] && fs[1..][1..][1..] == [e, f]
           && fs[1..][1..][1..][1..] == [f];
    assert Fields([f]) == Field(f) + [] == Field(f);
    assert Fields([e, f]) == Field(e) + Field(f);
    assert Fields([d, e, f]) == Field(d) + (Field(e) + Field(f));
    assert Fields([b, d, e, f]) == Field(b) + (Field(d) + (Field(e) + Field(f)));
  }

  /** The decoder recovers all four values. The name needs no bound: its truncated length prefix is never read. */
  lemma DecodeOfEncode(claim: Claim)
    requires |claim.nonce| < TWO_32 && |claim.public| == 32
    ensures Decode(Encode(claim)) == Some(claim)
  {
    hide Field, Fields, TakeFields, U32Bytes, Canonical;
    var fields := [DOMAIN, U32Bytes(PAYLOAD_VERSION), claim.nonce, claim.public, U16Bytes(claim.grpcPort)];
    CanonicalIsFields(claim);
    TakeFieldsOfFields(fields, Field(claim.name));
    NameIsTheRest(claim.name);
  }

  lemma NameIsTheRest(name: Bytes)
    ensures |Field(name)| >= 4 && Field(name)[4..] == name
  {
  }

  lemma CanonicalInjective(a: Claim, b: Claim)
    requires |a.nonce| < TWO_32 && |b.nonce| < TWO_32 && |a.public| == |b.public| == 32
    requires Encode(a) == Encode(b)
    ensures a == b
  {
    DecodeOfEncode(a);
    DecodeOfEncode(b);
  }

  ghost predicate InjectiveBelow(bound: nat) {
    forall a: Claim, b: Claim
      | |a.nonce| < bound && |b.nonce| < bound && |a.public| == |b.public| == 32 && Encode(a) == Encode(b) ::
      a == b
  }

  /** A claim whose 2^32-byte nonce reads, under its truncated length 0, as an empty nonce and more fields. */
  ghost function LongNonceClaim(public: Bytes): Claim {
    Claim(Field(public) + Field(U16Bytes(0)) + U32Bytes(0) + ZeroBytes(TWO_32 - 46), public, 0, [])
  }

  ghost function EmptyNonceTwin(public: Bytes): Claim {
    Claim([], public, 0, ZeroBytes(TWO_32 - 46) + (Field(public) + Field(U16Bytes(0)) + Field([])))
  }

  lemma TwinsEncodeAlike(public: Bytes)
    requires |public| == 32
    ensures |LongNonceClaim(public).nonce| == TWO_32 && Encode(LongNonceClaim(public)) == Encode(EmptyNonceTwin(public))
  {
    hide U32Bytes, ZeroBytes;
    var p, q, m, z := Field(public), Field(U16Bytes(0)), Field([]), ZeroBytes(TWO_32 - 46);
    var head := Field(DOMAIN) + Field(U32Bytes(PAYLOAD_VERSION));
    ZeroBytesLength(TWO_32 - 46);
    assert |p| == 36 && |q| == 6 && |m| == 4 && m == U32Bytes(0);
    hide Field, U16Bytes;
    LengthsWrap(public);
    assert Encode(LongNonceClaim(public)) == head + (U32Bytes(0) + (p + q + U32Bytes(0) + z)) + p + q + m;
    assert Encode(EmptyNonceTwin(public)) == head + m + p + q + (U32Bytes(0) + (z + (p + q + m)));
  }

  lemma ZeroBytesLength(n: nat)
    ensures |ZeroBytes(n)| == n
  {
  }

  lemma LengthsWrap(public: Bytes)
    requires |public| == 32
    ensures var nonce := LongNonceClaim(public).nonce; Field(nonce) == U32Bytes(0) + nonce
    ensures var name := EmptyNonceTwin(public).name; Field(name) == U32Bytes(0) + name
  {
    hide U32Bytes;
    ZeroBytesLength(TWO_32 - 46);
    hide ZeroBytes;
    assert |LongNonceClaim(public).nonce| == TWO_32 && |EmptyNonceTwin(public).name| == TWO_32;
  }

  /** The 2^32-byte bound on nonces is sharp. */
  lemma InjectiveExactlyBelow2To32(bound: nat)
    ensures InjectiveBelow(bound) <==> bound <= TWO_32
  {
    if bound <= TWO_32 {
      forall a: Claim, b: Claim
        | |a.nonce| < bound && |b.nonce| < bound && |a.public| == |b.public| == 32 && Encode(a) == Encode(b)
        ensures a == b
      {
        CanonicalInjective(a, b);
      }
    } else {
      ZeroBytesLength(32);
      var public := ZeroBytes(32);
      hide ZeroBytes;
      TwinsEncodeAlike(public);
      hide Canonical;
      assert LongNonceClaim(public).nonce != [];
      assert LongNonceClaim(public) != EmptyNonceTwin(public);
    }
  }

  // ---- Hex ----

  lemma HexDigitRoundTrip(n: nat)
    requires n < 16
    ensures ToDigit(HexDigit(n)) == Some(n) && HexDigit(n) < 128
  {
  }

  lemma {:induction false} HexPairs(bytes: Bytes, i: nat)
    requires i < |bytes|
    ensures Hex(bytes)[2 * i] == HexDigit(bytes[i] / 16) && Hex(bytes)[2 * i + 1] == HexDigit(bytes[i] % 16)
  {
    if i < |bytes| - 1 {
      HexPairs(bytes[..|bytes| - 1], i);
    }
  }

  lemma HexByteOfHex(bytes: Bytes, i: nat)
    requires i < |bytes|
    ensures HexByteAt(Hex(bytes), i) == Some(bytes[i])
  {
    hide Hex;
    HexPairs(bytes, i);
    HexDigitRoundTrip(bytes[i] / 16);
    HexDigitRoundTrip(bytes[i] % 16);
    if i + 1 < |bytes| {
      HexPairs(bytes, i + 1);
      HexDigitRoundTrip(bytes[i + 1] / 16);
    }
  }

  /** `decode_hex_array(encode_hex(x)) == x` for arrays of every length. */
  lemma HexRoundTrip(bytes: Bytes)
    ensures HexArray(Hex(bytes), |bytes|) == Some(bytes)
  {
    hide Hex, HexByteAt;
    var s, n := Hex(bytes), |bytes|;
    forall i | 0 <= i < n ensures HexByteAt(s, i) == Some(bytes[i]) {
      HexByteOfHex(bytes, i);
    }
    assert HexArray(s, n).value == bytes;
  }

  /** Encoding writes nothing but '0' to '9' and 'a' to 'f'. */
  lemma {:induction false} HexIsLowerCase(bytes: Bytes)
    ensures forall b | b in Hex(bytes) :: 48 <= b <= 57 || 97 <= b <= 102
  {
    if bytes != [] {
      HexIsLowerCase(bytes[..|bytes| - 1]);
    }
  }

  predicate IsHexDigit(b: Byte) { 48 <= b <= 57 || 65 <= b <= 70 || 97 <= b <= 102 }

  /** One pair of an accepted string: two hex digits in either case, or '+' and one hex digit. */
  predicate IsHexPair(a: Byte, b: Byte) { (IsHexDigit(a) || a == 43) && IsHexDigit(b) }

  /** The accepted strings: exactly 2n bytes in pairs that each read as a byte. */
  lemma HexLanguage(s: Bytes, n: nat)
    ensures HexArray(s, n).Some? <==> |s| == 2 * n && forall i | 0 <= i < n :: IsHexPair(s[2 * i], s[2 * i + 1])
  {
    if |s| == 2 * n && forall i | 0 <= i < n :: IsHexPair(s[2 * i], s[2 * i + 1]) {
      forall i | 0 <= i < n ensures HexByteAt(s, i).Some? {
        assert i + 1 < n ==> IsHexPair(s[2 * (i + 1)], s[2 * (i + 1) + 1]);
      }
    } else if IsHexArray(s, n) {
      forall i | 0 <= i < n ensures IsHexPair(s[2 * i], s[2 * i + 1]) {
        assert HexByteAt(s, i).Some?;
      }
    }
  }

  // ---- Discovery ----

  /** Any response at all: it is accepted, for what it says, exactly when its version is 1, its nonce the expected one,
      its hex fields decode and its signature verifies over the canonical bytes under a proper identity key. */
  lemma VerifiesExactly(c: Suite, resp: DiscoveryResponse, expectedNonce: Bytes, v: VerifiedServer)
    ensures VerifyDiscovery(c, resp, expectedNonce) == Ok(v) <==>
              && resp.payloadVersion == 1 && resp.nonce == expectedNonce
              && HexArray(resp.serverIdentityPublic, 32) == Some(v.identityPublic)
              && HexArray(resp.signature, 64).Some? && c.ed25519IsKey(v.identityPublic)
              && c.ed25519Verify(v.identityPublic, Encode(Claim(expectedNonce, v.identityPublic, v.grpcPort, v.name)),
                                 HexArray(resp.signature, 64).value)
              && v.name == resp.name && v.serverVersion == resp.serverVersion && v.grpcPort == resp.grpcPort
  {
  }

  /** Which error: the version is judged before the nonce, the nonce before the rest, the signature last. */
  lemma VerifyErrors(c: Suite, resp: DiscoveryResponse, expectedNonce: Bytes)
    ensures var r := VerifyDiscovery(c, resp, expectedNonce);
            && (r == Err(UnsupportedVersion(resp.payloadVersion)) <==> resp.payloadVersion != 1)
            && (r == Err(NonceMismatch) <==> resp.payloadVersion == 1 && resp.nonce != expectedNonce)
            && (r == Err(BadSignature) ==> HexArray(resp.serverIdentityPublic, 32).Some?
                                           && HexArray(resp.signature, 64).Some?)
            && (r.Err? ==> r.error.UnsupportedVersion? || r.error == NonceMismatch || r.error.MalformedField?
                           || r.error == BadSignature)
  {
  }

  /** The response an honest server gives: its identity key signs the canonical bytes. */
  function HonestResponse(c: Suite, seed: Bytes, nonce: Bytes, name: Bytes, serverVersion: Bytes, grpcPort: Port)
    : DiscoveryResponse
  {
    var public := c.ed25519Public(seed);
    DiscoveryResponse(name, serverVersion, grpcPort, Hex(public), nonce,
                      Hex(c.ed25519Sign(seed, Canonical(nonce, public, grpcPort, name))), PAYLOAD_VERSION)
  }

  /** Completeness: an honest response is accepted, whatever the nonce, name, version and port. */
  lemma HonestResponseAccepted(c: Suite, seed: Bytes, nonce: Bytes, name: Bytes, serverVersion: Bytes, grpcPort: Port)
    requires OutputLengths(c) && SignaturesVerify(c)
    ensures VerifyDiscovery(c, HonestResponse(c, seed, nonce, name, serverVersion, grpcPort), nonce) ==
            Ok(VerifiedServer(c.ed25519Public(seed), name, serverVersion, grpcPort))
  {
    var public := c.ed25519Public(seed);
    HexRoundTrip(public);
    HexRoundTrip(c.ed25519Sign(seed, Canonical(nonce, public, grpcPort, name)));
  }

  /** No forgery: a signature that was shown verifies for nothing but encoded claims signed under that key. */
  ghost predicate Unforged(c: Suite, shown: iset<Bytes>, signed: iset<(Bytes, Claim)>) {
    forall public, message, signature | signature in shown && c.ed25519Verify(public, message, signature) ::
      exists claim :: (public, claim) in signed && message == Encode(claim)
  }

  /** Every signed claim is within the bounds of the encoding. */
  ghost predicate WellSized(signed: iset<(Bytes, Claim)>) {
    forall public, claim | (public, claim) in signed :: |claim.nonce| < TWO_32 && |claim.public| == 32
  }

  predicate Shows(resp: DiscoveryResponse, shown: iset<Bytes>) {
    match HexArray(resp.signature, 64)
    case None => false
    case Some(signature) => signature in shown
  }

  /** Soundness: an accepted response states a claim that was signed, under the identity it names, for
      exactly the expected nonce and the reported port and name. */
  lemma AcceptedMeansSigned(c: Suite, resp: DiscoveryResponse, expectedNonce: Bytes, shown: iset<Bytes>,
                            signed: iset<(Bytes, Claim)>)
    requires Unforged(c, shown, signed) && WellSized(signed) && |expectedNonce| < TWO_32
    requires Shows(resp, shown) && VerifyDiscovery(c, resp, expectedNonce).Ok?
    ensures var v := VerifyDiscovery(c, resp, expectedNonce).value;
            (v.identityPublic, Claim(expectedNonce, v.identityPublic, v.grpcPort, v.name)) in signed
  {
    var v := VerifyDiscovery(c, resp, expectedNonce).value;
    var accepted := Claim(expectedNonce, v.identityPublic, v.grpcPort, v.name);
    var claim :| (v.identityPublic, claim) in signed && Encode(accepted) == Encode(claim);
    CanonicalInjective(accepted, claim);
  }

  /** A lawful suite that signs one message in a way of its own. */
  ghost function SigningToy(special: Bytes): Suite {
    var sign := (seed: Bytes, message: Bytes) => if message == special then seq(64, _ => 1) else ZeroBytes(64);
    Toy().(ed25519Sign := sign,
           ed25519Verify := (public: Bytes, message: Bytes, signature: Bytes) =>
             public == ZeroBytes(32) && signature == sign([], message))
  }

  /** Soundness and completeness speak of one library: for every nonce, name, version and port some lawful suite
      accepts its honest response while nothing shown is forged. */
  lemma PremisesMeet(nonce: Bytes, name: Bytes, serverVersion: Bytes, grpcPort: Port)
    returns (c: Suite, seed: Bytes, shown: iset<Bytes>, signed: iset<(Bytes, Claim)>)
    requires |nonce| < TWO_32
    ensures Lawful(c) && Unforged(c, shown, signed) && WellSized(signed)
    ensures var resp := HonestResponse(c, seed, nonce, name, serverVersion, grpcPort);
            Shows(resp, shown) && VerifyDiscovery(c, resp, nonce).Ok?
  {
    var public := ZeroBytes(32);
    var claim := Claim(nonce, public, grpcPort, name);
    c, seed, signed := SigningToy(Encode(claim)), [], iset{(public, claim)};
    var signature := c.ed25519Sign(seed, Encode(claim));
    shown := iset{signature};
    SigningToyIsLawful(Encode(claim));
    HonestResponseAccepted(c, seed, nonce, name, serverVersion, grpcPort);
    HexRoundTrip(signature);
    assert signature[0] == 1;
    assert forall message | message != Encode(claim) :: c.ed25519Sign([], message) != signature;
  }

  lemma SigningToyIsLawful(special: Bytes)
    ensures Lawful(SigningToy(special))
  {
    LawsAreSatisfiable();
  }

  /** The server version is not covered by the signature: the verdict does not depend on it, and it is
      passed on as sent. */
  lemma VerdictIgnoresServerVersion(c: Suite, resp: DiscoveryResponse, serverVersion: Bytes, expectedNonce: Bytes)
    ensures var verdict := VerifyDiscovery(c, resp, expectedNonce);
            VerifyDiscovery(c, resp.(serverVersion := serverVersion), expectedNonce) ==
            if verdict.Ok? then Ok(verdict.value.(serverVersion := serverVersion)) else verdict
  {
  }
}
