# Sylva client SDK: a verified model

The SDK is the Rust client of an end-to-end encrypted account system. This project models its four cores and proves
what they promise.

* **Secret Key codec** (`Words`, `SecretKeyCodec`, `SecretKeyLaws`). Crockford base32 in hyphenated groups of four.
  `EncodeGrouped` and `DecodeForgiving` are the source's loops on a `u32` accumulator: `Shl32` drops whatever is
  shifted past bit 31, nothing ever masks the accumulator, and the loop invariant `Pending` says that its low
  `accBits` bits are what is still owed of an unbounded bit string.
* **Key hierarchy** (`Primitives`, `Crypto`, `CryptoLaws`, `Flows`). Bootstrap, unlock, rewrap, the two-secret KEK,
  AEAD framing and the sealed box, over a record of uninterpreted library functions (`Suite`). The laws assumed of the
  library are predicates that each result names in its `requires`; `LawsAreSatisfiable` exhibits a suite that obeys
  all of them. XOR cancellation is proved. One law goes beyond the standards: `LegsDoNotCross`, that the XOR of the
  two legs differs when *both* factors differ. It does not follow from injectivity of the legs, and is needed only
  where both factors may be wrong together (a sign-in whose bundle was rewrapped between the server's password check
  and the fetch). `WrongPasswordFails`, `WrongSecretKeyFails` and `OnlyLatestPasswordOpens` do without it.
* **Signed discovery** (`Discovery`, `DiscoveryLaws`). Length-prefixed canonical bytes, the hex codec, verification
  and the trust-on-first-use check.
* **Client and vault** (`Storage`, `Transport`, `Endpoint`, `ClientSpec`, `ClientFacade`). `Client` and `Vault` are
  classes updated in place. Each client method is proved equal, in answer and in new state, to a step function of
  `ClientSpec`; a call that sends key material also returns what it sends, proved equal to what the spec sends. Every
  single store operation may be refused and every network answer is arbitrary. `ClientAnswers` says of each step, by its
  inputs alone, what it answers, sends and leaves. On these steps: `ClientRuns`
  (invariants of all runs with restarts), `ClientFailures` (what partial writes and deletions can and cannot break),
  `RestoreHistory` (restore against the history of calls). Calls that interleave: `PersistRace` (one client, every lock
  operation, store read, write and deletion a step of its own) with `RaceRuns`, `SignOutRace` and `PinRace` on it;
  `Devices` (one account on many devices, every message, write and deletion a step of its own) with `DeviceRuns`, `DeviceSteps` and `DeviceCalls`.

Where the code and its documentation differ, the model follows the code:

* `decode_hex_array` is documented as taking hex digits; `from_str_radix` also takes `+` and one digit, so `HexLanguage` has it.
* `push_field` writes the length `as u32`. The encoding is injective exactly up to nonces of fewer than 2^32 bytes:
  `InjectiveExactlyBelow2To32`, with two colliding payloads in `TwinsEncodeAlike`.
* A `forget_server` that is refused partway can leave the session token without the keys it needs:
  `ForgetIsSafeExactly` says for which refusals.
* `sign_out` deletes outside the lock under which logins are cached. `TokenLosesKeysExactly` says for all runs when that
  leaves a token without its keys, `SignOutSparesLoginExactly` says it write by write for one login and one sign-out,
  and `SignOutBreaksIt` is such a run. Sign-outs that overlap no login are harmless: `LockFreeMeansOneLogin`.
* `connect` reads the pin outside that lock. A connect that found no pin, and commits after a profile was written for
  another server, lets the next sign-in overwrite the pin with no `forget_server`: `ConnectRaceMovesPin`. Exactly these
  commits break the agreement of pin and connection: `PinStep`; without them the pin holds: `PinHolds`.
* A persist refused partway mixes the entries of two logins. `RefusedPersistMixesExactly` says when; after a restart
  `restore` then answers the user of the older profile on the newer login's token: `RefusedSignInMixesUsers`.

## Model

| member | source | states |
|---|---|---|
| SecretKeyCodec.EncodeGrouped | src/crypto/secret_key.rs:70-93 | the loop on the unmasked u32 writes exactly the 5-bit big-endian groups of the unbounded bit string, zero-padded at the end, hyphenated by four without a trailing hyphen |
| SecretKeyCodec.DecodeForgiving | src/crypto/secret_key.rs:96-114 | the loop on the unmasked u32 yields exactly the whole bytes of the normalised symbols' bit string, or the first bad character's error |
| SecretKeyLaws.AlphabetInClosedForm | src/crypto/secret_key.rs:17 | the alphabet is the digits and the upper-case letters in order, without I, L, O and U |
| SecretKeyLaws.SymbolRoundTrip | src/crypto/secret_key.rs:117-127 | every symbol reads back as its value |
| SecretKeyLaws.AcceptableHasValue | src/crypto/secret_key.rs:96-127 | exactly the ASCII letters (either case) and digits other than U have a value, look-alikes included |
| SecretKeyLaws.RoundTrip | src/crypto/secret_key.rs:70-114 | decode_forgiving(encode_grouped(b)) is b, for byte strings of every length |
| SecretKeyLaws.DisplayRoundTrip | src/crypto/secret_key.rs:47-58 | every Secret Key parses back from its display |
| SecretKeyLaws.ParseLanguage | src/crypto/secret_key.rs:53-58 | parse succeeds exactly on texts with 32 or 33 acceptable symbols besides hyphens and spaces; a bad character is reported as such |
| SecretKeyLaws.UnpackDropsThe33rd | src/crypto/secret_key.rs:96-114 | a 33rd symbol never completes a byte: the decoded bits are those of the first 32 symbols |
| SecretKeyLaws.ParsedKeyBits | src/crypto/secret_key.rs:53-58 | the parsed key is bit for bit the first 32 symbols |
| SecretKeyLaws.DisplayOfParsed | src/crypto/secret_key.rs:47-58 | display(parse(s)) is the first 32 normalised symbols of s, regrouped |
| SecretKeyLaws.SameKeyExactlyWhenSameNormalForm | src/crypto/secret_key.rs:53-58 | two accepted texts give the same key if and only if their first 32 normalised symbols agree |
| SecretKeyLaws.DisplayShape | src/crypto/secret_key.rs:70-93 | k symbols show as k + (k-1)/4 characters, a hyphen exactly at every fifth, never at the end |
| SecretKeyLaws.KeyShowsAsEightGroups | src/crypto/secret_key.rs:47-49 | a Secret Key shows as eight groups of four |
| SecretKeyLaws.ParseOfCanon | src/crypto/secret_key.rs:96-127 | any text is parsed like its canonical form: hyphens and spaces dropped, O as zero, I and L as one, letters in upper case |
| SecretKeyLaws.ShownIsTyped | src/crypto/secret_key.rs:47-58 | what is shown of a parsed key is, hyphens aside, the first 32 characters of the canonical form of what was typed |
| SecretKeyLaws.ParsedKeyNumber | src/crypto/secret_key.rs:53-58 | a key in base 256 and the symbols that spell it in base 32 are the same number |
| Primitives.XorCancelsLeft | src/crypto/mod.rs:386-392 | a common left operand cancels from XORed byte strings |
| Primitives.XorCancelsRight | src/crypto/mod.rs:386-392 | a common right operand cancels |
| Primitives.LawsAreSatisfiable | src/crypto/mod.rs:398-449 | the laws assumed of the cryptographic library can hold together |
| Crypto.DeriveKek | src/crypto/mod.rs:378-396 | each bit of the KEK says whether the Argon2id leg and the HKDF leg differ there; it fails with Kdf exactly when Argon2id does |
| Crypto.KekBits | src/crypto/mod.rs:386-392 | the same of the KEK that unlock and rewrap use |
| CryptoLaws.SealFrames | src/crypto/mod.rs:419-433 | sealing fails only on size; the blob is the nonce it was given and the ciphertext under it |
| CryptoLaws.OpenExactly | src/crypto/mod.rs:435-449 | any blob opens exactly when it holds a nonce and decrypts under it; otherwise Decrypt |
| CryptoLaws.BootstrapCarries | src/crypto/mod.rs:262-309 | a fresh bundle carries the drawn identity under the drawn Secret Key and salt, with its public keys and each wrap under its own nonce; bootstrap fails exactly when Argon2id refuses |
| CryptoLaws.UnlocksExactly | src/crypto/mod.rs:312-332 | any bundle, malformed or forged, unlocks to an identity exactly when its parameters parse, the XOR of the legs decrypts the master key and that the private keys, 32 bytes each |
| CryptoLaws.UnlockErrors | src/crypto/mod.rs:312-332 | which error stands for which obstacle |
| CryptoLaws.UnlockExactly | src/crypto/mod.rs:312-332 | the whole answer of unlock for any two factors: Kdf, the identity if they derive the bundle's KEK, Decrypt otherwise |
| CryptoLaws.KekSeparatesFactors | src/crypto/mod.rs:378-396 | with one factor fixed, KEKs agree exactly when the other factor's legs agree |
| CryptoLaws.WrongPasswordFails | src/crypto/mod.rs:312-332 | a wrong password with the right Secret Key gives Decrypt |
| CryptoLaws.WrongSecretKeyFails | src/crypto/mod.rs:312-332 | a wrong Secret Key with the right password gives Decrypt |
| CryptoLaws.UnlockFixesBothFactors | src/crypto/mod.rs:312-332 | a bundle opens under exactly one pair of factors |
| CryptoLaws.RewrapCarries | src/crypto/mod.rs:348-364 | the bundle with a rewrap carries the same identity under the new password, at the drawn salt, cost and nonce |
| CryptoLaws.ChangesKeepIdentity | src/crypto/mod.rs:312-364 | after any list of password changes the bundle carries the original identity under the last password, with private-key wraps and public keys untouched |
| CryptoLaws.OnlyLatestPasswordOpens | src/crypto/mod.rs:312-396 | of the passwords in play only the last one opens the bundle, to the original identity; another gives Decrypt |
| CryptoLaws.SealboxInfoInjective | src/crypto/mod.rs:239-252 | the sealed box's HKDF info determines the ephemeral and the recipient key |
| CryptoLaws.SealedBoxOpensExactly | src/crypto/mod.rs:208-252 | a sealed box is the ephemeral public key and the nonce and ciphertext; it opens for a secret exactly when HKDF, over both public keys, derives the same key |
| CryptoLaws.ShortBoxFails | src/crypto/mod.rs:222-237 | a box too short for an ephemeral key and a nonce gives Decrypt |
| CryptoLaws.LabelsSpell | src/crypto/mod.rs:37-39 | the two HKDF labels |
| CryptoLaws.SealedBoxRoundTrip | src/crypto/mod.rs:208-252 | open_sealed(s, seal_to(pub(s), m)) is m |
| CryptoLaws.GroupSecretChain | src/crypto/mod.rs:208-252 | a group secret sealed to an admin opens telemetry sealed to the group |
| Discovery.CanonicalBytes | src/transport/discovery.rs:173-181 | the pushes build the six length-prefixed fields in order |
| Discovery.PushField | src/transport/discovery.rs:184-187 | appends the length, truncated to 32 bits, and the field |
| DiscoveryLaws.DomainSpells | src/transport/discovery.rs:14-17 | the domain separator |
| Discovery.EncodeHex | src/transport/discovery.rs:161-168 | the loop writes two lower-case digits per byte |
| Discovery.DecodeHexArray | src/transport/discovery.rs:191-199 | the loop yields the bytes of all pairs, or None on a wrong length or the first bad pair |
| DiscoveryLaws.DecodeOfEncode | src/transport/discovery.rs:173-187 | a decoder recovers nonce, key, port and name from the canonical bytes; the name needs no length bound |
| DiscoveryLaws.CanonicalInjective | src/transport/discovery.rs:173-187 | equal canonical bytes mean equal claims, for nonces under 2^32 bytes |
| DiscoveryLaws.TwinsEncodeAlike | src/transport/discovery.rs:184-187 | two different claims with the same canonical bytes, one with a nonce of 2^32 bytes |
| DiscoveryLaws.InjectiveExactlyBelow2To32 | src/transport/discovery.rs:173-187 | the encoding is injective below a nonce bound if and only if the bound is at most 2^32 |
| DiscoveryLaws.HexRoundTrip | src/transport/discovery.rs:161-199 | hex decoding inverts hex encoding at every length |
| DiscoveryLaws.HexIsLowerCase | src/transport/discovery.rs:161-168 | encoding writes only digits and lower-case letters up to f |
| DiscoveryLaws.HexLanguage | src/transport/discovery.rs:191-199 | the exact accepted strings, the leading plus included |
| DiscoveryLaws.HonestResponseAccepted | src/transport/discovery.rs:67-94 | an honestly signed response is accepted for every nonce, name, version and port |
| DiscoveryLaws.AcceptedMeansSigned | src/transport/discovery.rs:67-94 | if no signature shown is forged, an accepted response states exactly a claim signed under the identity it names, for the expected nonce |
| DiscoveryLaws.PremisesMeet | src/transport/discovery.rs:67-94 | soundness and completeness apply to one lawful library: for every nonce, name, version and port some suite accepts its honest response while nothing shown is forged |
| DiscoveryLaws.VerifiesExactly | src/transport/discovery.rs:67-94 | any response is accepted, for what it says, exactly when version, nonce, hex fields, key and signature over the canonical bytes are right |
| DiscoveryLaws.VerifyErrors | src/transport/discovery.rs:67-94 | which error is reported, in which order |
| DiscoveryLaws.VerdictIgnoresServerVersion | src/transport/discovery.rs:67-94 | the unsigned server_version affects nothing but its own copy in the answer |
| Endpoint.EndpointRoundTrip | src/client.rs:463-472 | the endpoint connect caches splits back into its host and port, for every host, colons included |
| Endpoint.RsplitExactly | src/client.rs:463-472 | any stored text splits exactly at its last colon |
| Endpoint.PortTextExactly | src/client.rs:470-472 | a port is read from exactly an optional plus, zeros and its decimal |
| Transport.DiscoverAndConnect | src/transport/mod.rs:37-50 | a connection is only ever made to an identity equal to the pin, if there is one |
| Storage.Vault.Set | src/storage.rs:212-216 | writes one entry, or nothing when refused |
| Storage.Vault.Delete | src/storage.rs:221-225 | removes one entry, or nothing when refused |
| Storage.Vault.Clear | src/storage.rs:135-140 | deletes all five entries in the source's order, stopping at a refusal |
| Storage.Vault.ClearSession | src/storage.rs:146-150 | deletes the token, then the master key, stopping at a refusal |
| Flows.SendEnrollment | src/flows.rs:69-101 | the request carries the freshly wrapped keys and the public key of the device secret; nothing is sent if the key material could not be made |
| ClientFacade.Client.constructor | src/client.rs:131-136 | a new client has empty memory over the given vault |
| ClientFacade.Client.Persist | src/client.rs:496-511 | writes keys, token, device secret and profile in that order, stopping at a refusal |
| ClientFacade.Client.Connect | src/client.rs:142-168 | is ClientSpec.Connect in place, of which ConnectDecides gives answer and state |
| ClientFacade.Client.CreateOwner | src/client.rs:173-220 | is ClientSpec.CreateOwner in place, of which CreateOwnerDecides gives answer and state and CreateOwnerSends what is uploaded |
| ClientFacade.Client.SignIn | src/client.rs:226-272 | is ClientSpec.SignIn in place, of which SignInWithoutKey, SignInNotGranted and SignInDecides give answer and state |
| ClientFacade.Client.EnrollThisDevice | src/client.rs:276-293 | is ClientSpec.EnrollDevice in place, of which EnrollDecides gives answer and state; the public key registered is that of the secret stored |
| ClientFacade.Client.ChangePassword | src/client.rs:350-384 | modifies nothing; ChangePasswordDecides gives its answer, ChangePasswordSends what it sends |
| ClientFacade.Client.GetAvatar | src/client.rs:388-403 | modifies nothing; GetAvatarDecides gives its answer |
| ClientFacade.Client.SetAvatar | src/client.rs:407-418 | modifies nothing; SetAvatarDecides gives its answer and what it sends |
| ClientFacade.Client.SignOut | src/client.rs:424-429 | is ClientSpec.SignOut in place, of which SignOutDecides gives answer and state |
| ClientFacade.Client.ForgetServer | src/client.rs:434-439 | is ClientSpec.ForgetServer in place, of which ForgetDecides and ForgetIsSafeExactly give answer and state |
| ClientFacade.Client.Restore | src/client.rs:452-493 | is ClientSpec.Restore in place, of which RestoreDecides gives answer and state |
| ClientAnswers.ConnectDecides | src/client.rs:142-168 | connect asks exactly the given place with its nonce; it succeeds exactly when the answer verifies, the pin is absent or the same and the advertised port can be dialled; every error, the info shown and the new connection |
| ClientAnswers.RestoreDecides | src/client.rs:452-493 | restore resumes exactly when profile and token are cached and the pinned identity answers at the cached place and can be dialled; the session is bound to that channel |
| ClientAnswers.CreateOwnerDecides | src/client.rs:173-220 | every error; on success the shown text parses to the drawn Secret Key and user, token, keys and profile are those of the server's session and the draws |
| ClientAnswers.CreateOwnerSends | src/flows.rs:69-101 | the upload names the given password and device key; its material opens under that password and the drawn Secret Key to the drawn identity |
| ClientAnswers.SignInWithoutKey | src/client.rs:232-239 | what a sign-in answers when the typed text does not parse or no key is cached |
| ClientAnswers.SignInNotGranted | src/client.rs:241-272 | what it answers, changing nothing, without a connection, a session or the bundle; a second factor is asked for as such |
| ClientAnswers.SignInDecides | src/client.rs:226-272 | with a key and a session, the local unlock under the given password and that key decides; on success exactly this identity, key and session are kept |
| ClientAnswers.EnrollDecides | src/client.rs:276-293 | every error; on success the given secret is stored under its own entry and nothing else changes |
| ClientAnswers.ChangePasswordDecides | src/client.rs:350-384 | the whole answer, in the order in which store, key, session, server, local check and verdict are asked |
| ClientAnswers.SetAvatarDecides | src/client.rs:407-418 | the whole answer; what is sent opens under the cached master key to the given image, under the drawn nonce |
| ClientAnswers.GetAvatarDecides | src/client.rs:388-403 | the whole answer to any bytes the server may send |
| ClientAnswers.SignOutDecides | src/client.rs:424-429 | succeeds exactly when neither deletion is refused; then memory is empty, token and master key are gone and every other entry stays |
| ClientAnswers.ForgetDecides | src/client.rs:434-439 | succeeds exactly when no deletion is refused; then nothing is left |
| ClientAnswers.VaultReadsBack | src/storage.rs:75-132 | each entry reads back as written, is missing exactly when absent, and a value of the wrong size is an error |
| ClientRuns.PersistOutcome | src/client.rs:496-511 | a persist leaves one of six prefixes of its writes, the full one exactly on success |
| ClientRuns.ClearOutcome | src/storage.rs:135-140 | a wipe leaves one of six prefixes of its deletions, the empty vault exactly on success |
| ClientRuns.StepKeepsPin | src/client.rs:142-493 | every call keeps the invariant tying channel, verified server, endpoints, session, profile and pin; only a successful forget_server moves a stored pin |
| ClientRuns.FailuresChangeNothing | src/client.rs:142-493 | a failed call leaves the memory as it was, and the vault too unless the store refused |
| ClientRuns.RunIsConsistent | src/client.rs:142-493 | the invariant holds in every run, with refusals and restarts |
| ClientRuns.PinStable | src/client.rs:142-493 | in every run a stored server identity stays the same until a forget_server succeeds |
| ClientRuns.ConnectedMeansPinned | src/client.rs:142-493 | in every run a connected client with a profile is connected to the pinned identity, and a session has both |
| ClientFailures.ForgetIsSafeExactly | src/client.rs:434-439 | exactly which refusals make a forget_server leave a token without its keys |
| ClientFailures.StepIsSafe | src/client.rs:496-511 | every other call, refused anywhere, keeps "a token has both keys" |
| ClientFailures.TokenImpliesKeys | src/storage.rs:135-150 | in every run where no forget_server failed partway, a stored token comes with both keys |
| ClientFailures.ProfileGoesLast | src/storage.rs:135-140 | a call that removes the profile leaves an empty vault, from any state |
| ClientFailures.WrittenIsFrom | src/client.rs:496-511 | over another login, the first k writes leave that login or the new one exactly when they changed nothing or left nothing of the other |
| ClientFailures.RefusedPersistMixesExactly | src/client.rs:496-511 | over a different login a persist leaves the old one exactly when its first write is refused, the new one exactly when none is, and otherwise a mix |
| ClientFailures.RestoreAfterRefusedPersist | src/client.rs:452-511 | after a refused persist and a restart, restore resumes exactly under these conditions: the stored profile's user, on the new token if that write went through |
| ClientFailures.RefusedSignInMixesUsers | src/client.rs:226-272 | a sign_in whose token is written and whose profile is refused later resumes as the previous user with the new login's token |
| RestoreHistory.StepTracks | src/client.rs:142-493 | each call updates memory and vault as it updates the history of logins and connections |
| RestoreHistory.RunTracks | src/client.rs:142-493 | after every run of a fresh install without refusals, restarts allowed, the state stores exactly the history |
| RestoreHistory.RestoreAnswersHistory | src/client.rs:452-493 | restore gives Some(u) exactly when the latest login not undone was u's and its endpoint verifies and connects |
| PersistRace.FireIsTracked | src/client.rs:142-429 | every interleaved step of every call keeps lock discipline and the origin of every vault entry and of the memory |
| PersistRace.LockFreeMeansLastLogin | src/client.rs:180-429 | in every interleaving, whenever the lock is free, Secret Key and profile are the last login's, token and master key too unless a sign_out deleted them since, memory too unless one reset it since |
| PersistRace.TokenLosesKeysExactly | src/client.rs:180-429 | for all runs, a token is without its keys exactly when a sign_out deleted the last login's master key and none deleted its token |
| RaceRuns.LoneCreateOwner | src/client.rs:173-220 | a create_owner that nothing interleaves with does in the race what the step of ClientSpec does |
| RaceRuns.LoneSignIn | src/client.rs:226-272 | likewise for a sign_in, with the key typed or cached |
| RaceRuns.LoneConnect | src/client.rs:142-168 | likewise for a connect; one that meets another identity than the pinned one changes nothing |
| RaceRuns.LoneEnroll | src/client.rs:276-293 | likewise for an enroll_this_device |
| RaceRuns.LoneSignOut | src/client.rs:424-429 | likewise for a sign_out |
| RaceRuns.RefusedReleases | src/client.rs:180-293 | a call that fails under the lock leaves memory and vault as they were and the lock free |
| SignOutRace.FireKeepsPhase | src/client.rs:424-429 | with sign-outs kept apart from logins, what they have cut moves through four phases |
| SignOutRace.LockFreeMeansOneLogin | src/client.rs:180-429 | for any number of logins, enrollments, connects and sign-outs, no sign-out overlapping a login: at rest vault and memory hold one login, or that login signed out |
| SignOutRace.SignOutSparesLoginExactly | src/client.rs:424-511 | in any reachable state, a sign_out against a login keeps the token with its keys exactly when the token was written before the first deletion or the master key after the second |
| SignOutRace.SignOutBreaksIt | src/client.rs:424-429 | a run from a fresh install that leaves a token and a session without a master key |
| PinRace.PinStep | src/client.rs:142-168 | each step keeps pin, connection and pins read in agreement, except exactly the commit of a connect that read no pin when another is stored by then; while they agree no step moves the pin |
| PinRace.PinHolds | src/client.rs:142-293 | in every interleaving without such a commit a stored pin never moves |
| PinRace.PinHoldsWithoutOverlap | src/client.rs:142-293 | there is no such commit if no profile is written between a first connect's read of the pin and its commit |
| PinRace.StaleConnectMovesPin | src/client.rs:142-272 | from any reachable state such a commit lets the next sign_in overwrite the pin with no forget_server |
| PinRace.ConnectRaceMovesPin | src/client.rs:142-272 | a run from a fresh install in which the pin moves from one server to another |
| Devices.LoginExactly | src/flows.rs:108-141 | once the server lets a password pass, login succeeds exactly when both factors are those of the bundle |
| Devices.RewrappedHolds | src/client.rs:364-374 | a change that passes the local check carries the account's master key under the new password |
| Devices.UnlockedHolds | src/client.rs:245-258 | what a sign-in goes on to persist is the account's own Secret Key and master key, whatever was typed |
| Devices.SentChangeHolds | src/client.rs:376-384 | a rewrap prepared at any earlier time fits the bundle stored now |
| Devices.FireIsContinuous | src/client.rs:226-429 | every message, store write and store deletion of every call on every device keeps the account's invariant |
| Devices.ReachableIsContinuous | src/client.rs:173-493 | the invariant holds in every reachable state: no device ever caches or persists another key than the account's |
| Devices.BundleAlwaysOpens | src/client.rs:350-384 | in every interleaving the stored bundle opens under the current password and the account's Secret Key to the original keys, under no other pair, with private-key wraps unchanged |
| Devices.EveryDeviceOpensTheAvatar | src/client.rs:388-418 | a master key cached at any point of a run opens the image served at any later point: the latest one, the empty one included |
| Devices.AvatarOpens | src/transport/client.rs:169-177 | a sealed image, the empty one included, is never the server's "unset" |
| Devices.ReturningSignIn | src/client.rs:226-272 | in any reachable state a device with its Secret Key cached signs in without typing it, with exactly the current password, to the same master key |
| Devices.GetAvatarAnswers | src/client.rs:388-403 | the whole answer of an undisturbed get_avatar in any reachable state |
| DeviceRuns.FireIsOrderly | src/client.rs:226-511 | with one writing call at a time per device and no refusals, every step keeps a session with its master key and a token with its keys |
| DeviceRuns.SignedInReadsTheAvatar | src/client.rs:388-418 | in such runs every signed-in device at rest reads exactly the latest image |
| DeviceCalls.SignInWithTypedKey | src/client.rs:226-272 | in any reachable state a connected device signs in with a typed Secret Key exactly when the text parses to the account's key and the password is current; then it caches the account's keys, otherwise nothing changes |
| DeviceCalls.ShownKeySignsIn | src/client.rs:212-240 | the text that create_owner showed signs in on any connected device |
| DeviceCalls.ChangePasswordSends | src/client.rs:350-384 | in any reachable state a request is sent exactly when key, session, current password and Argon2id allow; it names both passwords, and the bundle with its rewrap opens under the new one to the account's keys |
| DeviceCalls.AvatarArrives | src/client.rs:388-418 | what set_avatar sends from one device, get_avatar on another reads as that image |
| DeviceSteps.UndisturbedSignIn | src/client.rs:226-272 | a sign_in run from start to end with nothing in between does to its device what the step of ClientSpec does |
| DeviceSteps.UndisturbedChange | src/client.rs:350-384 | a change_password brings the server exactly the request of the call, and the server takes it whole or not at all |
| DeviceSteps.UndisturbedAvatar | src/client.rs:407-418 | a set_avatar brings the server exactly the blob of the call |
| DeviceSteps.UndisturbedRemoval | src/client.rs:424-439 | a sign_out or forget_server does what the step does |
| DeviceSteps.UndisturbedRestore | src/client.rs:452-493 | a restore does what the step does |
| DeviceSteps.CallsEndEarly | src/client.rs:226-493 | what ends a call early, with nothing sent and the device as it was |

## Left out

- The internals of Argon2id, HKDF, X25519, Ed25519 and XChaCha20-Poly1305: library code, with the laws named in `Primitives`.
- The size of the AEAD tag: sixteen bytes of tag and "opens under no other key" contradict each other by counting, so ciphertext length is open; `AvatarOpens` rests on the 24-byte nonce alone.
- Argon2id injectivity on all strings, which counting also forbids: it is assumed on a pool of passwords, `Suite.passwords`, from which runs draw.
- JSON of `KdfParams` and `ServerProfile`, and UTF-8 of the session token: stored values are tagged (`Blob`, `ParamsText`), so a malformed value is one of the wrong tag or length.
- `parse_and_verify`, `fetch_and_verify` and `discovery_url`: JSON and HTTP around `verify_discovery`; a fetch yields a parsed response or fails, and the fresh nonce is an input.
- gRPC, channels and the failover loop of `src/transport/client.rs`: a channel names what it reaches.
- The OS keychain: a map whose every operation may be refused without effect; `MemoryStore`'s string keys are an enumeration.
- Randomness: salts, nonces, keys and ephemeral secrets are inputs of the sizes that are drawn.
- Device listing and revocation, profile, display name, email and labels: forwarded to the server without local state.
- `src/ffi.rs`, `src/proto.rs`, `build.rs`, `src/bin` and the server-side contracts.
- Zeroization and redacted Debug output.
- Buffer appends of `seal` and `seal_to`: straight-line concatenations, modelled as expressions.
- Crypto.DeriveKek: it asks for 32-byte outputs of the library calls, which the source's array types give.
- ClientFacade.Client.SignIn: what the network answers is an argument, and the call runs alone; interleaving is the subject of `PersistRace` and `Devices`.
- PersistRace.LockFreeMeansLastLogin: restore, forget_server and refused writes are not among the interleaved calls.
- SignOutRace.SignOutSparesLoginExactly: between the login's start of writing and its end only the two calls move; `TokenLosesKeysExactly` covers every interleaving, by what sign-outs have deleted since the last login wrote it.
- Devices.BundleAlwaysOpens: the server is the one the client expects: it checks the current password, swaps verifier and wrap in one step, and never ends a session.
- Devices.FireIsContinuous: connect and enroll_this_device are one step each; they touch no key of the account.
