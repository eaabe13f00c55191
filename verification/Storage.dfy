/** The device's persistent store (src/storage.rs): five entries, each written or deleted by one backend call
    that may be refused without effect. */
module Storage {
  import opened Common

  /** "master_key", "secret_key", "device_secret", "session_token", "server_profile". */
  datatype Entry = MasterKey | SecretKey | DeviceSecret | SessionToken | Profile

  datatype ServerProfile = ServerProfile(endpoints: seq<string>, identityPublic: Bytes, userId: string)

  /** A stored value: raw bytes, UTF-8 text, or the JSON of a profile. */
  datatype Blob = Raw(bytes: Bytes) | Text(text: string) | Json(profile: ServerProfile)

  type Entries = map<Entry, Blob>

  datatype StoreError = Backend | MalformedValue

  /** Which of a call's backend operations are refused, numbered from 0. */
  type Faults = nat -> bool

  // ---- Specification ----

  /** Writes in order, stopping at the first refusal; the flag says whether all went through. */
  function WriteAll(v: Entries, writes: seq<(Entry, Blob)>, faults: Faults, at: nat): (Entries, bool)
    decreases |writes|
  {
    if writes == [] then (v, true)
    else if faults(at) then (v, false)
    else WriteAll(v[writes[0].0 := writes[0].1], writes[1..], faults, at + 1)
  }

  /** Deletes in order, stopping at the first refusal. */
  function DeleteAll(v: Entries, keys: seq<Entry>, faults: Faults, at: nat): (Entries, bool)
    decreases |keys|
  {
    if keys == [] then (v, true)
    else if faults(at) then (v, false)
    else DeleteAll(v - {keys[0]}, keys[1..], faults, at + 1)
  }

  const CLEAR_ORDER: seq<Entry> := [MasterKey, SecretKey, DeviceSecret, SessionToken, Profile]
  const CLEAR_SESSION_ORDER: seq<Entry> := [SessionToken, MasterKey]

  function ReadRaw(v: Entries, key: Entry, size: nat, refused: bool): Result<Option<Bytes>, StoreError> {
    if refused then Err(Backend)
    else if key !in v then Ok(None)
    else if v[key].Raw? && |v[key].bytes| == size then Ok(Some(v[key].bytes))
    else Err(MalformedValue)
  }

  function ReadMasterKey(v: Entries, refused: bool): Result<Option<Bytes>, StoreError> {
    ReadRaw(v, MasterKey, 32, refused)
  }

  function ReadSecretKey(v: Entries, refused: bool): Result<Option<Bytes>, StoreError> {
    ReadRaw(v, SecretKey, 20, refused)
  }

  function ReadSessionToken(v: Entries, refused: bool): Result<Option<string>, StoreError> {
    if refused then Err(Backend)
    else if SessionToken !in v then Ok(None)
    else if v[SessionToken].Text? then Ok(Some(v[SessionToken].text))
    else Err(MalformedValue)
  }

  function ReadProfile(v: Entries, refused: bool): Result<Option<ServerProfile>, StoreError> {
    if refused then Err(Backend)
    else if Profile !in v then Ok(None)
    else if v[Profile].Json? then Ok(Some(v[Profile].profile))
    else Err(MalformedValue)
  }

  /** The pinned identity key of the stored profile. */
  function StoredPin(v: Entries): Option<Bytes> {
    if Profile in v && v[Profile].Json? then Some(v[Profile].profile.identityPublic) else None
  }

  /** A session token is never there without the keys it needs. */
  predicate TokenHasKeys(v: Entries) {
    SessionToken in v ==> MasterKey in v && SecretKey in v
  }

  // ---- The vault ----

  class Vault {
    var entries: Entries

    constructor ()
      ensures entries == map[]
    {
      entries := map[];
    }

    method Set(key: Entry, value: Blob, refused: bool) returns (ok: bool)
      modifies this
      ensures ok == !refused
      ensures entries == if ok then old(entries)[key := value] else old(entries)
    {
      ok := !refused;
      if ok {
        entries := entries[key := value];
      }
    }

    method Delete(key: Entry, refused: bool) returns (ok: bool)
      modifies this
      ensures ok == !refused
      ensures entries == if ok then old(entries) - {key} else old(entries)
    {
      ok := !refused;
      if ok {
        entries := entries - {key};
      }
    }

    /** The full wipe: the server profile goes last. */
    method Clear(faults: Faults) returns (ok: bool)
      modifies this
      ensures (entries, ok) == DeleteAll(old(entries), CLEAR_ORDER, faults, 0)
    {
      ok := DeleteEach(CLEAR_ORDER, faults);
    }

    method DeleteEach(keys: seq<Entry>, faults: Faults) returns (ok: bool)
      modifies this
      ensures (entries, ok) == DeleteAll(old(entries), keys, faults, 0)
    {
      for i := 0 to |keys|
        invariant DeleteAll(old(entries), keys, faults, 0) == DeleteAll(entries, keys[i..], faults, i)
      {
        assert keys[i..][1..] == keys[i + 1..];
        var deleted := Delete(keys[i], faults(i));
        if !deleted {
          return false;
        }
      }
      ok := true;
    }

    /** Ends the session: the token goes first, so a token never outlives the master key. */
    method ClearSession(faults: Faults) returns (ok: bool)
      modifies this
      ensures (entries, ok) == DeleteAll(old(entries), CLEAR_SESSION_ORDER, faults, 0)
    {
      assert CLEAR_SESSION_ORDER[1..] == [MasterKey] && CLEAR_SESSION_ORDER[1..][1..] == [];
      ok := Delete(SessionToken, faults(0));
      if ok {
        ok := Delete(MasterKey, faults(1));
      }
    }
  }
}
