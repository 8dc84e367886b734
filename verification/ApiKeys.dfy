/**
 API keys: a table of hashed keys with revocation and expiry, daily usage counts, and a 60-second cache of
 positive verdicts in each process. The digest of a raw key is any function of its text. Each call reads the
 clock once; times are integers in seconds.
 */
module ApiKeys {
  import opened Common

  const TTL := 60
  const DAY := 86_400
  const PREFIX := "sk-"

  type KeyId = string
  type Digest = string

  datatype Key = Key(
    tenant: string, digest: Digest, title: string, tag: string, permissions: seq<string>, createdBy: string, expiresAt: Option<int>,
    calls: int, lastUsed: Option<int>, revoked: bool, revokedAt: Option<int>, revokedBy: string)

  type Keys = map<KeyId, Key>

  datatype UsageDay = UsageDay(id: KeyId, day: int)

  type UsageTable = map<UsageDay, int>

  datatype Store = Store(keys: Keys, usage: UsageTable)

  datatype Profile = Profile(id: KeyId, tenant: string, tag: string, title: string, permissions: seq<string>)

  datatype Reason = InvalidFormat | NotFound | Revoked | Expired

  datatype Verdict = Valid(profile: Profile) | Invalid(reason: Reason)

  datatype Entry = Entry(profile: Profile, cachedAt: int)

  type Cache = map<Digest, Entry>

  datatype Error = KeyTaken | KeyMissing

  function ProfileOf(id: KeyId, k: Key): Profile {
    Profile(id, k.tenant, k.tag, k.title, k.permissions)
  }

  ghost predicate UniqueDigests(keys: Keys) {
    forall a, b :: a in keys && b in keys && keys[a].digest == keys[b].digest ==> a == b
  }

  ghost function KeyWith(keys: Keys, digest: Digest): (id: Option<KeyId>)
    ensures id.Some? ==> id.value in keys && keys[id.value].digest == digest
    ensures id.None? ==> forall a :: a in keys ==> keys[a].digest != digest
  {
    if exists a :: a in keys && keys[a].digest == digest
    then var a :| a in keys && keys[a].digest == digest; Some(a)
    else None
  }

  predicate PastExpiry(k: Key, now: int) {
    k.expiresAt.Some? && k.expiresAt.value < now
  }

  function Judge(id: KeyId, k: Key, now: int): Verdict {
    if k.revoked then Invalid(Revoked)
    else if PastExpiry(k, now) then Invalid(Expired)
    else Valid(ProfileOf(id, k))
  }

  /** What the table alone answers. */
  ghost function Lookup(keys: Keys, digest: Digest, now: int): Verdict {
    var id := KeyWith(keys, digest);
    if id.None? then Invalid(NotFound) else Judge(id.value, keys[id.value], now)
  }

  function RecordedKeys(keys: Keys, id: KeyId, now: int): Keys {
    if id in keys then keys[id := keys[id].(calls := keys[id].calls + 1, lastUsed := Some(now))] else keys
  }

  function RecordedUsage(usage: UsageTable, id: KeyId, now: int): UsageTable {
    var day := UsageDay(id, now / DAY);
    usage[day := 1 + if day in usage then usage[day] else 0]
  }

  function Record(s: Store, id: KeyId, now: int): Store {
    Store(RecordedKeys(s.keys, id, now), RecordedUsage(s.usage, id, now))
  }

  predicate Fresh(cache: Cache, digest: Digest, now: int) {
    digest in cache && now - cache[digest].cachedAt < TTL
  }

  predicate WellFormed(raw: string) {
    PREFIX <= raw
  }

  /** The verdict of one process, from its cache or else from the table. */
  ghost function VerdictOf(s: Store, cache: Cache, raw: string, digest: Digest, now: int): Verdict {
    if !WellFormed(raw) then Invalid(InvalidFormat)
    else if Fresh(cache, digest, now) then Valid(cache[digest].profile)
    else Lookup(s.keys, digest, now)
  }

  function AfterVerdict(s: Store, v: Verdict, now: int): Store {
    if v.Valid? then Record(s, v.profile.id, now) else s
  }

  function CacheAfter(cache: Cache, digest: Digest, v: Verdict, now: int): Cache {
    if v.Valid? && !Fresh(cache, digest, now) then cache[digest := Entry(v.profile, now)] else cache
  }

  datatype Draft = Draft(tenant: string, title: string, tag: string, permissions: seq<string>, createdBy: string, expiresAt: Option<int>)

  function NewKey(d: Draft, digest: Digest): Key {
    Key(d.tenant, digest, d.title, d.tag, if d.permissions == [] then ["read", "write"] else d.permissions, d.createdBy, d.expiresAt,
        0, None, false, None, "")
  }

  ghost predicate Taken(keys: Keys, id: KeyId, digest: Digest) {
    id in keys || KeyWith(keys, digest).Some?
  }

  ghost function Created(keys: Keys, id: KeyId, d: Draft, digest: Digest): Keys {
    if Taken(keys, id, digest) then keys else keys[id := NewKey(d, digest)]
  }

  function RevokedKeys(keys: Keys, id: KeyId, actor: string, now: int): Keys {
    if id in keys then keys[id := keys[id].(revoked := true, revokedAt := Some(now), revokedBy := actor)] else keys
  }

  function Without(cache: Cache, id: KeyId): Cache {
    map d | d in cache && cache[d].profile.id != id :: cache[d]
  }

  /** The replacement key: the old key's tenant, tag and permissions, a marked label, and no expiry. */
  function Replacement(k: Key, actor: string): Draft {
    Draft(k.tenant, k.title + " (rotated)", k.tag, k.permissions, actor, None)
  }

  ghost function RotateError(keys: Keys, id: KeyId, newId: KeyId, digest: Digest): Option<Error> {
    if id !in keys then Some(KeyMissing) else if Taken(keys, newId, digest) then Some(KeyTaken) else None
  }

  ghost function Rotated(keys: Keys, id: KeyId, newId: KeyId, digest: Digest, actor: string, now: int): Keys {
    if RotateError(keys, id, newId, digest) != None then keys
    else RevokedKeys(keys[newId := NewKey(Replacement(keys[id], actor), digest)], id, actor, now)
  }

  ghost function CacheAfterRotate(keys: Keys, cache: Cache, id: KeyId, newId: KeyId, digest: Digest): Cache {
    if RotateError(keys, id, newId, digest) != None then cache else Without(cache - {digest}, id)
  }

  /** The two tables that every process shares. */
  class Database {
    var keys: Keys
    var usage: UsageTable

    ghost function Contents(): Store
      reads this
    {
      Store(keys, usage)
    }

    constructor ()
      ensures Contents() == Store(map[], map[])
    {
      keys, usage := map[], map[];
    }
  }

  /** One process. */
  class ApiKeyManager {
    const db: Database
    const digestOf: string -> Digest
    var cache: Cache

    constructor (db: Database, digestOf: string -> Digest)
      ensures this.db == db && this.digestOf == digestOf && cache == map[]
    {
      this.db, this.digestOf, cache := db, digestOf, map[];
    }

    method Select(digest: Digest) returns (id: Option<KeyId>)
      requires UniqueDigests(db.keys)
      ensures id == KeyWith(db.keys, digest)
    {
      if exists a :: a in db.keys && db.keys[a].digest == digest {
        var a :| a in db.keys && db.keys[a].digest == digest;
        id := Some(a);
      } else {
        id := None;
      }
    }

    method CreateKey(id: KeyId, token: string, d: Draft) returns (error: Option<Error>)
      requires UniqueDigests(db.keys)
      modifies this`cache, db`keys
      ensures UniqueDigests(db.keys)
      ensures db.keys == Created(old(db.keys), id, d, digestOf(PREFIX + token))
      ensures error == if Taken(old(db.keys), id, digestOf(PREFIX + token)) then Some(KeyTaken) else None
      ensures cache == if error == None then old(cache) - {digestOf(PREFIX + token)} else old(cache)
    {
      var digest := digestOf(PREFIX + token);
      var holder := Select(digest);
      if id in db.keys || holder.Some? {
        return Some(KeyTaken);
      }
      db.keys := db.keys[id := NewKey(d, digest)];
      cache := cache - {digest};
      return None;
    }

    method VerifyKey(raw: string, now: int) returns (v: Verdict)
      requires UniqueDigests(db.keys)
      modifies this`cache, db
      ensures UniqueDigests(db.keys)
      ensures v == VerdictOf(old(db.Contents()), old(cache), raw, digestOf(raw), now)
      ensures db.Contents() == AfterVerdict(old(db.Contents()), v, now)
      ensures cache == if WellFormed(raw) then CacheAfter(old(cache), digestOf(raw), v, now) else old(cache)
    {
      if !WellFormed(raw) {
        return Invalid(InvalidFormat);
      }
      var digest := digestOf(raw);
      if digest in cache && now - cache[digest].cachedAt < TTL {
        RecordUsage(cache[digest].profile.id, now);
        return Valid(cache[digest].profile);
      }
      var found := Select(digest);
      if found.None? {
        return Invalid(NotFound);
      }
      var id, k := found.value, db.keys[found.value];
      if k.revoked {
        return Invalid(Revoked);
      }
      if PastExpiry(k, now) {
        return Invalid(Expired);
      }
      v := Valid(ProfileOf(id, k));
      cache := cache[digest := Entry(v.profile, now)];
      RecordUsage(id, now);
    }

    method RecordUsage(id: KeyId, now: int)
      modifies db
      ensures db.Contents() == Record(old(db.Contents()), id, now)
    {
      if id in db.keys {
        db.keys := db.keys[id := db.keys[id].(calls := db.keys[id].calls + 1, lastUsed := Some(now))];
      }
      var day := UsageDay(id, now / DAY);
      if day in db.usage {
        db.usage := db.usage[day := db.usage[day] + 1];
      } else {
        db.usage := db.usage[day := 1];
      }
    }

    method RevokeKey(id: KeyId, actor: string, now: int)
      requires UniqueDigests(db.keys)
      modifies this`cache, db`keys
      ensures UniqueDigests(db.keys)
      ensures db.keys == RevokedKeys(old(db.keys), id, actor, now)
      ensures cache == Without(old(cache), id)
    {
      if id in db.keys {
        db.keys := db.keys[id := db.keys[id].(revoked := true, revokedAt := Some(now), revokedBy := actor)];
      }
      cache := map d | d in cache && cache[d].profile.id != id :: cache[d];
    }

    method RotateKey(id: KeyId, newId: KeyId, token: string, actor: string, now: int) returns (error: Option<Error>)
      requires UniqueDigests(db.keys)
      modifies this`cache, db`keys
      ensures error == RotateError(old(db.keys), id, newId, digestOf(PREFIX + token))
      ensures UniqueDigests(db.keys)
      ensures db.keys == Rotated(old(db.keys), id, newId, digestOf(PREFIX + token), actor, now)
      ensures cache == CacheAfterRotate(old(db.keys), old(cache), id, newId, digestOf(PREFIX + token))
    {
      if id !in db.keys {
        return Some(KeyMissing);
      }
      var k := db.keys[id];
      error := CreateKey(newId, token, Replacement(k, actor));
      if error == None {
        assert k.permissions == db.keys[id].permissions;
        RevokeKey(id, actor, now);
      }
    }
  }
}
