/** Building the backup keyring from the application secret and the configured keys. */
module BackupKeyring {
  import opened Wrappers
  import opened Bytes
  import opened JsText
  import opened BackupFormat

  datatype KeyringError =
    | MalformedEntry | BadKeyId | ShortSecret
    | DuplicateId | DuplicateFingerprint
    | BadActiveKeyId | UnknownActiveKey

  /** The digest that turns a configured secret into key bytes, and the cipher suite's primitives. */
  datatype Suite = Suite(prims: Primitives, digest: string -> seq<byte>)
  {
    predicate AllValid(keys: seq<EncryptionKey>) {
      forall k | k in keys :: prims.KeyIsMade(k)
    }

    function MakeKey(id: string, key: seq<byte>): EncryptionKey {
      EncryptionKey(id, key, prims.fingerprint(key))
    }

    /** One entry `id:secret`; the secret may itself contain colons. */
    function ConfiguredKey(entry: string): (r: Result<EncryptionKey, KeyringError>)
      ensures r.Ok? ==> prims.KeyIsMade(r.value)
    {
      match IndexOf(entry, ':', 0)
      case None => Err(MalformedEntry)
      case Some(0) => Err(MalformedEntry)
      case Some(separator) =>
        var id := Trim(entry[..separator]);
        var secret := entry[separator + 1..];
        if !KeyIdIsValid(id) then Err(BadKeyId)
        else if |secret| < 32 then Err(ShortSecret)
        else Ok(MakeKey(id, digest(secret)))
    }

    lemma PrependedIsValid(first: EncryptionKey, keys: seq<EncryptionKey>)
      requires prims.KeyIsMade(first) && AllValid(keys)
      ensures AllValid([first] + keys)
    {
    }

    /** All configured keys, or the first entry's error. */
    function ConfiguredKeys(entries: seq<string>): (r: Result<seq<EncryptionKey>, KeyringError>)
      ensures r.Ok? ==> AllValid(r.value)
    {
      if entries == [] then Ok([])
      else
        match ConfiguredKey(entries[0])
        case Err(e) => Err(e)
        case Ok(k) =>
          match ConfiguredKeys(entries[1..])
          case Err(e) => Err(e)
          case Ok(ks) =>
            PrependedIsValid(k, ks);
            Ok([k] + ks)
    }

    /** The application secret's key first, then the configured ones. */
    function AllKeys(appSecretKey: seq<byte>, entries: seq<string>): (r: Result<seq<EncryptionKey>, KeyringError>)
      ensures r.Ok? ==> AllValid(r.value)
    {
      match ConfiguredKeys(entries)
      case Err(e) => Err(e)
      case Ok(ks) =>
        var first := MakeKey(APP_SECRET_ID, appSecretKey);
        AppSecretIdIsValid();
        PrependedIsValid(first, ks);
        Ok([first] + ks)
    }
  }

  lemma AppSecretIdIsValid()
    ensures KeyIdIsValid(APP_SECRET_ID)
  {
  }

  /** The active id is known to the ring exactly when some key carries it, and then it is well formed. */
  lemma ActiveKeyIsListed(
    suite: Suite, byId: map<string, EncryptionKey>, byFingerprint: map<string, EncryptionKey>,
    keys: seq<EncryptionKey>, active: string)
    requires Holds(byId, byFingerprint, keys, |keys|)
    requires suite.AllValid(keys)
    ensures active in byId <==> exists k :: k in keys && k.id == active
    ensures active in byId ==> KeyIdIsValid(active) && byId[active].id == active
  {
  }

  /** No two of the first n keys share a name. */
  ghost predicate DistinctUpTo(keys: seq<EncryptionKey>, n: nat)
    requires n <= |keys|
  {
    forall i, j | 0 <= i < j < n ::
      keys[i].id != keys[j].id && keys[i].fingerprint != keys[j].fingerprint
  }

  ghost predicate DistinctNames(keys: seq<EncryptionKey>) {
    DistinctUpTo(keys, |keys|)
  }

  function ActiveKeyId(configured: Option<string>): string {
    if configured.None? || Trim(configured.value) == "" then APP_SECRET_ID else Trim(configured.value)
  }

  /** m maps the names of exactly the first n keys to those keys. */
  ghost predicate Indexes(m: map<string, EncryptionKey>, name: EncryptionKey -> string, keys: seq<EncryptionKey>, n: nat)
    requires n <= |keys|
  {
    && (forall i | 0 <= i < n :: name(keys[i]) in m && m[name(keys[i])] == keys[i])
    && (forall x | x in m :: exists i | 0 <= i < n :: name(keys[i]) == x)
  }

  lemma IndexesOneMore(m: map<string, EncryptionKey>, name: EncryptionKey -> string, keys: seq<EncryptionKey>, n: nat)
    requires n < |keys| && Indexes(m, name, keys, n) && name(keys[n]) !in m
    ensures Indexes(m[name(keys[n]) := keys[n]], name, keys, n + 1)
  {
    var m' := m[name(keys[n]) := keys[n]];
    forall x | x in m' ensures exists i | 0 <= i < n + 1 :: name(keys[i]) == x {
      if x == name(keys[n]) {
        assert name(keys[n]) == x;
      } else {
        var i :| 0 <= i < n && name(keys[i]) == x;
        assert name(keys[i]) == x;
      }
    }
  }

  const IdOf: EncryptionKey -> string := (k: EncryptionKey) => k.id
  const FingerprintOf: EncryptionKey -> string := (k: EncryptionKey) => k.fingerprint

  /** Both maps hold exactly the first n keys. */
  ghost predicate Holds(byId: map<string, EncryptionKey>, byFingerprint: map<string, EncryptionKey>, keys: seq<EncryptionKey>, n: nat)
    requires n <= |keys|
  {
    Indexes(byId, IdOf, keys, n) && Indexes(byFingerprint, FingerprintOf, keys, n)
  }

  lemma HoldsOneMore(byId: map<string, EncryptionKey>, byFingerprint: map<string, EncryptionKey>, keys: seq<EncryptionKey>, n: nat)
    requires n < |keys| && Holds(byId, byFingerprint, keys, n)
    requires keys[n].id !in byId && keys[n].fingerprint !in byFingerprint
    ensures Holds(byId[keys[n].id := keys[n]], byFingerprint[keys[n].fingerprint := keys[n]], keys, n + 1)
  {
    IndexesOneMore(byId, IdOf, keys, n);
    IndexesOneMore(byFingerprint, FingerprintOf, keys, n);
  }

  lemma DistinctOneMore(byId: map<string, EncryptionKey>, byFingerprint: map<string, EncryptionKey>, keys: seq<EncryptionKey>, n: nat)
    requires n < |keys| && Holds(byId, byFingerprint, keys, n) && DistinctUpTo(keys, n)
    requires keys[n].id !in byId && keys[n].fingerprint !in byFingerprint
    ensures DistinctUpTo(keys, n + 1)
  {
    forall i | 0 <= i < n
      ensures keys[i].id != keys[n].id && keys[i].fingerprint != keys[n].fingerprint
    {
      assert IdOf(keys[i]) in byId && FingerprintOf(keys[i]) in byFingerprint;
    }
  }

  lemma RepeatedNameIsNotDistinct(byId: map<string, EncryptionKey>, byFingerprint: map<string, EncryptionKey>, keys: seq<EncryptionKey>, n: nat)
    requires n < |keys| && Holds(byId, byFingerprint, keys, n)
    requires keys[n].id in byId || keys[n].fingerprint in byFingerprint
    ensures !DistinctNames(keys)
  {
    if keys[n].id in byId {
      var i :| 0 <= i < n && IdOf(keys[i]) == keys[n].id;
      assert keys[i].id == keys[n].id;
    } else {
      var i :| 0 <= i < n && FingerprintOf(keys[i]) == keys[n].fingerprint;
      assert keys[i].fingerprint == keys[n].fingerprint;
    }
  }

  lemma HeldKeysMakeAValidRing(suite: Suite, ring: Keyring, keys: seq<EncryptionKey>)
    requires Holds(ring.keysById, ring.keysByFingerprint, keys, |keys|)
    requires suite.AllValid(keys)
    requires ring.activeKey.id in ring.keysById && ring.keysById[ring.activeKey.id] == ring.activeKey
    ensures ValidKeyring(suite.prims, ring)
  {
    forall id | id in ring.keysById
      ensures exists i | 0 <= i < |keys| :: keys[i].id == id && keys[i] == ring.keysById[id] && keys[i] in keys
    {
      var i :| 0 <= i < |keys| && IdOf(keys[i]) == id;
    }
    forall f | f in ring.keysByFingerprint
      ensures exists i | 0 <= i < |keys| ::
                keys[i].fingerprint == f && keys[i] == ring.keysByFingerprint[f] && keys[i] in keys
    {
      var i :| 0 <= i < |keys| && FingerprintOf(keys[i]) == f;
    }
    assert forall i | 0 <= i < |keys| ::
        && IdOf(keys[i]) in ring.keysById && ring.keysById[IdOf(keys[i])] == keys[i]
        && FingerprintOf(keys[i]) in ring.keysByFingerprint && ring.keysByFingerprint[FingerprintOf(keys[i])] == keys[i];
  }

  /**
    Entries are the comma-separated pieces of the setting, trimmed, with empty ones dropped.
    Building the ring succeeds exactly when every entry is well formed, no two keys share an id or a
    fingerprint, and the active id names one of them; and then the ring is consistent.
   */
  method BuildKeyring(
    suite: Suite, appSecretKey: seq<byte>, entries: seq<string>, activeKeyId: Option<string>)
    returns (r: Result<Keyring, KeyringError>)
    ensures r.Ok? <==>
            && suite.AllKeys(appSecretKey, entries).Ok?
            && DistinctNames(suite.AllKeys(appSecretKey, entries).value)
            && exists k :: k in suite.AllKeys(appSecretKey, entries).value && k.id == ActiveKeyId(activeKeyId)
    ensures r.Ok? ==>
              && ValidKeyring(suite.prims, r.value)
              && r.value.activeKey.id == ActiveKeyId(activeKeyId)
              && Holds(r.value.keysById, r.value.keysByFingerprint,
                       suite.AllKeys(appSecretKey, entries).value,
                       |suite.AllKeys(appSecretKey, entries).value|)
  {
    var all := suite.AllKeys(appSecretKey, entries);
    if all.Err? {
      return Err(all.error);
    }
    var keys := all.value;
    var keysById, keysByFingerprint := map[], map[];
    var i := 0;
    while i < |keys|
      invariant 0 <= i <= |keys|
      invariant Holds(keysById, keysByFingerprint, keys, i)
      invariant DistinctUpTo(keys, i)
    {
      if keys[i].id in keysById || keys[i].fingerprint in keysByFingerprint {
        RepeatedNameIsNotDistinct(keysById, keysByFingerprint, keys, i);
      }
      if keys[i].id in keysById {
        return Err(DuplicateId);
      }
      if keys[i].fingerprint in keysByFingerprint {
        return Err(DuplicateFingerprint);
      }
      HoldsOneMore(keysById, keysByFingerprint, keys, i);
      DistinctOneMore(keysById, keysByFingerprint, keys, i);
      keysById := keysById[keys[i].id := keys[i]];
      keysByFingerprint := keysByFingerprint[keys[i].fingerprint := keys[i]];
      i := i + 1;
    }
    ActiveKeyIsListed(suite, keysById, keysByFingerprint, keys, ActiveKeyId(activeKeyId));
    var active := ActiveKeyId(activeKeyId);
    if !KeyIdIsValid(active) {
      return Err(BadActiveKeyId);
    }
    if active !in keysById {
      return Err(UnknownActiveKey);
    }
    var ring := Keyring(keysById[active], keysById, keysByFingerprint);
    HeldKeysMakeAValidRing(suite, ring, keys);
    return Ok(ring);
  }

  // ------------------------------------------------------------------ the setting

  /** The pieces between the commas; always at least one. */
  function Pieces(setting: string): (r: seq<string>)
    ensures |r| >= 1
    decreases |setting|
  {
    match IndexOf(setting, ',', 0)
    case None => [setting]
    case Some(i) => [setting[..i]] + Pieces(setting[i + 1..])
  }

  function Kept(pieces: seq<string>): seq<string> {
    if pieces == [] then []
    else if Trim(pieces[0]) == "" then Kept(pieces[1..])
    else [Trim(pieces[0])] + Kept(pieces[1..])
  }

  function EntriesOf(setting: Option<string>): seq<string> {
    Kept(Pieces(if setting.None? then "" else setting.value))
  }

  function Joined(pieces: seq<string>): string
    requires pieces != []
  {
    if |pieces| == 1 then pieces[0] else pieces[0] + "," + Joined(pieces[1..])
  }

  /** Cutting at the commas undoes joining with commas. */
  lemma {:induction false} PiecesOfJoined(pieces: seq<string>)
    requires pieces != [] && forall p | p in pieces :: ',' !in p
    ensures Pieces(Joined(pieces)) == pieces
    decreases |pieces|
  {
    var s := Joined(pieces);
    assert pieces[0] in pieces;
    if |pieces| == 1 {
      assert IndexOf(s, ',', 0).None?;
    } else {
      var first, rest := pieces[0], Joined(pieces[1..]);
      assert s[|first|] == ',';
      forall k | 0 <= k < |first| ensures s[k] != ',' {
        assert s[k] == first[k] && first[k] in first;
      }
      assert IndexOf(s, ',', 0) == Some(|first|);
      assert s[..|first|] == first && s[|first| + 1..] == rest;
      PiecesOfJoined(pieces[1..]);
      assert pieces == [first] + pieces[1..];
    }
  }

  /** The ring of a setting, which may be absent, be padded with blanks and have empty pieces. */
  method ParseBackupEncryptionKeyring(
    suite: Suite, appSecretKey: seq<byte>, configuredKeys: Option<string>, activeKeyId: Option<string>)
    returns (r: Result<Keyring, KeyringError>)
    ensures r.Ok? <==>
            && suite.AllKeys(appSecretKey, EntriesOf(configuredKeys)).Ok?
            && DistinctNames(suite.AllKeys(appSecretKey, EntriesOf(configuredKeys)).value)
            && exists k :: k in suite.AllKeys(appSecretKey, EntriesOf(configuredKeys)).value && k.id == ActiveKeyId(activeKeyId)
    ensures r.Ok? ==>
              && ValidKeyring(suite.prims, r.value)
              && r.value.activeKey.id == ActiveKeyId(activeKeyId)
              && Holds(r.value.keysById, r.value.keysByFingerprint,
                       suite.AllKeys(appSecretKey, EntriesOf(configuredKeys)).value,
                       |suite.AllKeys(appSecretKey, EntriesOf(configuredKeys)).value|)
  {
    r := BuildKeyring(suite, appSecretKey, EntriesOf(configuredKeys), activeKeyId);
  }
}
