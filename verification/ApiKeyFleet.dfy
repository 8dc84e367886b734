/** Runs of several processes, each with its own verdict cache, over the shared key tables. */
module ApiKeyFleet {
  import opened Common
  import opened ApiKeys

  datatype Op =
    | Create(process: nat, id: KeyId, token: string, draft: Draft, now: int)
    | Verify(process: nat, raw: string, now: int)
    | Revoke(process: nat, id: KeyId, actor: string, now: int)
    | Rotate(process: nat, id: KeyId, newId: KeyId, token: string, actor: string, now: int)

  datatype Fleet = Fleet(store: Store, caches: map<nat, Cache>)

  type Hash = string -> Digest

  const EMPTY := Fleet(Store(map[], map[]), map[])

  function CacheOf(f: Fleet, p: nat): Cache {
    if p in f.caches then f.caches[p] else map[]
  }

  ghost function KeysAfter(h: Hash, f: Fleet, op: Op): Keys {
    match op
    case Create(_, id, token, draft, _) => Created(f.store.keys, id, draft, h(PREFIX + token))
    case Verify(_, raw, now) => AfterVerdict(f.store, Answer(h, f, op), now).keys
    case Revoke(_, id, actor, now) => RevokedKeys(f.store.keys, id, actor, now)
    case Rotate(_, id, newId, token, actor, now) => Rotated(f.store.keys, id, newId, h(PREFIX + token), actor, now)
  }

  ghost function CacheNext(h: Hash, f: Fleet, op: Op): Cache {
    var cache := CacheOf(f, op.process);
    match op
    case Create(_, id, token, _, _) => if Taken(f.store.keys, id, h(PREFIX + token)) then cache else cache - {h(PREFIX + token)}
    case Verify(_, raw, now) => if WellFormed(raw) then CacheAfter(cache, h(raw), Answer(h, f, op), now) else cache
    case Revoke(_, id, _, _) => Without(cache, id)
    case Rotate(_, id, newId, token, _, _) => CacheAfterRotate(f.store.keys, cache, id, newId, h(PREFIX + token))
  }

  ghost function Answer(h: Hash, f: Fleet, op: Op): Verdict
    requires op.Verify?
  {
    VerdictOf(f.store, CacheOf(f, op.process), op.raw, h(op.raw), op.now)
  }

  ghost function UsageAfter(h: Hash, f: Fleet, op: Op): UsageTable {
    if op.Verify? then AfterVerdict(f.store, Answer(h, f, op), op.now).usage else f.store.usage
  }

  ghost function Step(h: Hash, f: Fleet, op: Op): Fleet {
    Fleet(Store(KeysAfter(h, f, op), UsageAfter(h, f, op)), f.caches[op.process := CacheNext(h, f, op)])
  }

  ghost function ExecFrom(h: Hash, f: Fleet, ops: seq<Op>): Fleet {
    if ops == [] then f else Step(h, ExecFrom(h, f, Init(ops)), Last(ops))
  }

  ghost function Exec(h: Hash, ops: seq<Op>): Fleet {
    ExecFrom(h, EMPTY, ops)
  }

  /** The clock never runs backwards. */
  predicate Timed(ops: seq<Op>) {
    ops == [] || (Timed(Init(ops)) && (Init(ops) == [] || Last(Init(ops)).now <= Last(ops).now))
  }

  predicate NotBefore(ops: seq<Op>, now: int) {
    ops == [] || Last(ops).now <= now
  }

  // ----- how rows and cache entries change -----

  /** A row keeps its digest, profile and expiry, and once revoked stays so. */
  ghost predicate RowEvolves(k: Key, after: Key, now: int) {
    && after.digest == k.digest && after.tenant == k.tenant && after.tag == k.tag && after.title == k.title
    && after.permissions == k.permissions && after.expiresAt == k.expiresAt && after.createdBy == k.createdBy
    && (k.revoked ==> after.revoked)
    && (after.revoked ==> (k.revoked && after.revokedAt == k.revokedAt) || after.revokedAt == Some(now))
  }

  ghost predicate Evolves(keys: Keys, after: Keys, now: int) {
    forall id :: id in keys ==> id in after && RowEvolves(keys[id], after[id], now)
  }

  lemma CreateEvolves(keys: Keys, id: KeyId, d: Draft, digest: Digest, now: int)
    requires UniqueDigests(keys)
    ensures Evolves(keys, Created(keys, id, d, digest), now) && UniqueDigests(Created(keys, id, d, digest))
  {
  }

  lemma RevokeEvolves(keys: Keys, id: KeyId, actor: string, now: int)
    requires UniqueDigests(keys)
    ensures Evolves(keys, RevokedKeys(keys, id, actor, now), now) && UniqueDigests(RevokedKeys(keys, id, actor, now))
  {
  }

  lemma RecordEvolves(keys: Keys, id: KeyId, now: int)
    requires UniqueDigests(keys)
    ensures Evolves(keys, RecordedKeys(keys, id, now), now) && UniqueDigests(RecordedKeys(keys, id, now))
  {
  }

  lemma EvolvesOn(keys: Keys, mid: Keys, after: Keys, now: int)
    requires Evolves(keys, mid, now) && Evolves(mid, after, now)
    ensures Evolves(keys, after, now)
  {
    forall id | id in keys
      ensures id in after && RowEvolves(keys[id], after[id], now)
    {
      assert RowEvolves(keys[id], mid[id], now) && RowEvolves(mid[id], after[id], now);
    }
  }

  lemma RotateEvolves(keys: Keys, id: KeyId, newId: KeyId, digest: Digest, actor: string, now: int)
    requires UniqueDigests(keys)
    ensures var after := Rotated(keys, id, newId, digest, actor, now); Evolves(keys, after, now) && UniqueDigests(after)
  {
    if RotateError(keys, id, newId, digest) == None {
      var mid := Created(keys, newId, Replacement(keys[id], actor), digest);
      CreateEvolves(keys, newId, Replacement(keys[id], actor), digest, now);
      RevokeEvolves(mid, id, actor, now);
      EvolvesOn(keys, mid, RevokedKeys(mid, id, actor, now), now);
    }
  }

  lemma KeysEvolve(h: Hash, f: Fleet, op: Op)
    requires UniqueDigests(f.store.keys)
    ensures Evolves(f.store.keys, KeysAfter(h, f, op), op.now) && UniqueDigests(KeysAfter(h, f, op))
  {
    match op
    case Create(_, id, token, draft, now) => CreateEvolves(f.store.keys, id, draft, h(PREFIX + token), now);
    case Verify(_, _, now) =>
      if Answer(h, f, op).Valid? {
        RecordEvolves(f.store.keys, Answer(h, f, op).profile.id, now);
      }
    case Revoke(_, id, actor, now) => RevokeEvolves(f.store.keys, id, actor, now);
    case Rotate(_, id, newId, token, actor, now) => RotateEvolves(f.store.keys, id, newId, h(PREFIX + token), actor, now);
  }

  /** What a cached verdict is worth: the row's own fields, an expiry not before the caching, no revocation before it. */
  ghost predicate Sound(keys: Keys, digest: Digest, e: Entry) {
    var id := e.profile.id;
    && id in keys && keys[id].digest == digest && ProfileOf(id, keys[id]) == e.profile
    && !PastExpiry(keys[id], e.cachedAt)
    && (keys[id].revoked ==> keys[id].revokedAt.Some? && e.cachedAt <= keys[id].revokedAt.value)
  }

  ghost predicate CacheSound(keys: Keys, cache: Cache, clock: int) {
    forall d :: d in cache ==> Sound(keys, d, cache[d]) && cache[d].cachedAt <= clock
  }

  ghost predicate FleetSound(f: Fleet, clock: int) {
    UniqueDigests(f.store.keys) && forall p: nat :: CacheSound(f.store.keys, CacheOf(f, p), clock)
  }

  lemma SoundEvolves(keys: Keys, after: Keys, cache: Cache, clock: int, now: int)
    requires Evolves(keys, after, now) && CacheSound(keys, cache, clock) && clock <= now
    ensures CacheSound(after, cache, now)
  {
    forall d | d in cache
      ensures Sound(after, d, cache[d])
    {
      var id := cache[d].profile.id;
      assert Sound(keys, d, cache[d]);
      assert RowEvolves(keys[id], after[id], now);
    }
  }

  /** Entries come from the old cache, or from a table lookup that succeeded at this very call. */
  lemma NewEntries(h: Hash, f: Fleet, op: Op, d: Digest)
    requires d in CacheNext(h, f, op)
    ensures var e := CacheNext(h, f, op)[d];
      || (d in CacheOf(f, op.process) && e == CacheOf(f, op.process)[d])
      || (op.Verify? && d == h(op.raw) && e.cachedAt == op.now && Lookup(f.store.keys, d, op.now) == Valid(e.profile))
  {
  }

  lemma LookupSound(keys: Keys, d: Digest, p: Profile, now: int)
    requires Lookup(keys, d, now) == Valid(p)
    ensures Sound(keys, d, Entry(p, now)) && !keys[p.id].revoked
  {
  }

  lemma StepSound(h: Hash, f: Fleet, op: Op, clock: int)
    requires FleetSound(f, clock) && clock <= op.now
    ensures FleetSound(Step(h, f, op), op.now)
  {
    var after := KeysAfter(h, f, op);
    KeysEvolve(h, f, op);
    forall p: nat
      ensures CacheSound(after, CacheOf(Step(h, f, op), p), op.now)
    {
      SoundEvolves(f.store.keys, after, CacheOf(f, p), clock, op.now);
      if p == op.process {
        StepCacheSound(h, f, op);
      }
    }
  }

  lemma StepCacheSound(h: Hash, f: Fleet, op: Op)
    requires Evolves(f.store.keys, KeysAfter(h, f, op), op.now)
    requires CacheSound(KeysAfter(h, f, op), CacheOf(f, op.process), op.now)
    ensures CacheSound(KeysAfter(h, f, op), CacheNext(h, f, op), op.now)
  {
    var after, cache := KeysAfter(h, f, op), CacheNext(h, f, op);
    forall d | d in cache
      ensures Sound(after, d, cache[d]) && cache[d].cachedAt <= op.now
    {
      NewEntries(h, f, op, d);
      if Lookup(f.store.keys, d, op.now) == Valid(cache[d].profile) && cache[d].cachedAt == op.now {
        LookupSound(f.store.keys, d, cache[d].profile, op.now);
        var id := cache[d].profile.id;
        assert RowEvolves(f.store.keys[id], after[id], op.now);
      } else {
        assert d in CacheOf(f, op.process);
      }
    }
  }

  lemma {:induction false} RunSound(h: Hash, ops: seq<Op>, now: int)
    requires Timed(ops) && NotBefore(ops, now)
    ensures FleetSound(Exec(h, ops), now)
  {
    if ops != [] {
      RunSound(h, Init(ops), Last(ops).now);
      StepSound(h, Exec(h, Init(ops)), Last(ops), Last(ops).now);
      assert FleetSound(Exec(h, ops), Last(ops).now);
      LaterSound(Exec(h, ops), Last(ops).now, now);
    }
  }

  lemma LaterSound(f: Fleet, clock: int, now: int)
    requires FleetSound(f, clock) && clock <= now
    ensures FleetSound(f, now)
  {
    forall p: nat
      ensures CacheSound(f.store.keys, CacheOf(f, p), now)
    {
      assert CacheSound(f.store.keys, CacheOf(f, p), clock);
    }
  }

  // ----- staleness -----

  /** In every run a valid verdict names the key's row, which neither expired nor was last revoked 60 or more seconds ago. */
  lemma {:induction false} StalenessBound(h: Hash, ops: seq<Op>, op: Op)
    requires Timed(ops) && op.Verify? && NotBefore(ops, op.now) && Answer(h, Exec(h, ops), op).Valid?
    ensures var p, keys := Answer(h, Exec(h, ops), op).profile, Exec(h, ops).store.keys;
      && p.id in keys && keys[p.id].digest == h(op.raw) && ProfileOf(p.id, keys[p.id]) == p
      && (PastExpiry(keys[p.id], op.now) ==> op.now - keys[p.id].expiresAt.value < 60)
      && (keys[p.id].revoked ==> keys[p.id].revokedAt.Some? && op.now - keys[p.id].revokedAt.value < 60)
  {
    var f := Exec(h, ops);
    RunSound(h, ops, op.now);
    var cache := CacheOf(f, op.process);
    if Fresh(cache, h(op.raw), op.now) {
      assert CacheSound(f.store.keys, cache, op.now);
      assert Sound(f.store.keys, h(op.raw), cache[h(op.raw)]);
    } else {
      LookupSound(f.store.keys, h(op.raw), Answer(h, f, op).profile, op.now);
    }
  }

  /** The process cached a verdict for the digest less than 60 seconds ago. */
  predicate Remembers(f: Fleet, process: nat, digest: Digest, now: int) {
    digest in CacheOf(f, process) && now < CacheOf(f, process)[digest].cachedAt + 60
  }

  /** A verdict differs from the table's answer exactly when a fresh entry hides an expiry or a revocation. */
  lemma {:induction false} VerdictOrTable(h: Hash, ops: seq<Op>, op: Op)
    requires Timed(ops) && op.Verify? && NotBefore(ops, op.now) && WellFormed(op.raw)
    ensures var f := Exec(h, ops);
      var table := Lookup(f.store.keys, h(op.raw), op.now);
      Answer(h, f, op) != table <==> Remembers(f, op.process, h(op.raw), op.now) && table in {Invalid(Expired), Invalid(Revoked)}
  {
    var f := Exec(h, ops);
    RunSound(h, ops, op.now);
    var cache, d := CacheOf(f, op.process), h(op.raw);
    if Fresh(cache, d, op.now) {
      assert CacheSound(f.store.keys, cache, op.now);
      assert Sound(f.store.keys, d, cache[d]);
      assert KeyWith(f.store.keys, d) == Some(cache[d].profile.id);
    }
  }

  /** The call at index k was a table lookup by this process that gave this profile for this digest. */
  ghost predicate LookedUp(h: Hash, ops: seq<Op>, k: nat, process: nat, digest: Digest, p: Profile, at: int) {
    && k < |ops| && ops[k].Verify? && ops[k].process == process && h(ops[k].raw) == digest && ops[k].now == at
    && Lookup(Exec(h, ops[..k]).store.keys, digest, at) == Valid(p)
  }

  lemma LookedUpLater(h: Hash, ops: seq<Op>, op: Op, k: nat, process: nat, digest: Digest, p: Profile, at: int)
    requires LookedUp(h, ops, k, process, digest, p, at)
    ensures LookedUp(h, ops + [op], k, process, digest, p, at)
  {
    assert (ops + [op])[..k] == ops[..k];
  }

  lemma {:induction false} EntryWasLookedUp(h: Hash, ops: seq<Op>, process: nat, d: Digest) returns (k: nat)
    requires d in CacheOf(Exec(h, ops), process)
    ensures var e := CacheOf(Exec(h, ops), process)[d]; LookedUp(h, ops, k, process, d, e.profile, e.cachedAt)
  {
    var before, op := Init(ops), Last(ops);
    var f := Exec(h, before);
    var e := CacheOf(Exec(h, ops), process)[d];
    assert ops == before + [op];
    if process == op.process {
      NewEntries(h, f, op, d);
    }
    if d in CacheOf(f, process) && CacheOf(f, process)[d] == e {
      k := EntryWasLookedUp(h, before, process, d);
      LookedUpLater(h, before, op, k, process, d, e.profile, e.cachedAt);
    } else {
      k := |before|;
      assert ops[..k] == before;
    }
  }

  /** Every valid verdict is what the table itself answered to the same process less than 60 seconds earlier. */
  lemma VerdictWasTrue(h: Hash, ops: seq<Op>, op: Op) returns (k: nat)
    requires op.Verify? && Answer(h, Exec(h, ops), op).Valid?
    ensures k <= |ops| && op.now - (ops + [op])[k].now < 60
    ensures LookedUp(h, ops + [op], k, op.process, h(op.raw), Answer(h, Exec(h, ops), op).profile, (ops + [op])[k].now)
  {
    var f := Exec(h, ops);
    var cache, d := CacheOf(f, op.process), h(op.raw);
    if Fresh(cache, d, op.now) {
      k := EntryWasLookedUp(h, ops, op.process, d);
      LookedUpLater(h, ops, op, k, op.process, d, cache[d].profile, cache[d].cachedAt);
    } else {
      k := |ops|;
      assert (ops + [op])[..k] == ops;
    }
  }

  // ----- revocation -----

  /** The key is revoked, its entries are no later than t, and the revoking process has none. */
  ghost predicate Sealed(f: Fleet, id: KeyId, digest: Digest, t: int, process: nat) {
    && id in f.store.keys && f.store.keys[id].revoked && f.store.keys[id].digest == digest
    && forall p: nat, d :: d in CacheOf(f, p) && CacheOf(f, p)[d].profile.id == id ==> p != process && CacheOf(f, p)[d].cachedAt <= t
  }

  lemma StaysSealed(h: Hash, f: Fleet, op: Op, id: KeyId, digest: Digest, t: int, process: nat)
    requires UniqueDigests(f.store.keys) && Sealed(f, id, digest, t, process)
    ensures Sealed(Step(h, f, op), id, digest, t, process)
  {
    KeysEvolve(h, f, op);
    assert RowEvolves(f.store.keys[id], KeysAfter(h, f, op)[id], op.now);
    forall p: nat, d | d in CacheOf(Step(h, f, op), p) && CacheOf(Step(h, f, op), p)[d].profile.id == id
      ensures p != process && CacheOf(Step(h, f, op), p)[d].cachedAt <= t
    {
      var e := CacheOf(Step(h, f, op), p)[d];
      if p == op.process {
        NewEntries(h, f, op, d);
        if Lookup(f.store.keys, d, op.now) == Valid(e.profile) {
          LookupSound(f.store.keys, d, e.profile, op.now);
        }
      }
      assert d in CacheOf(f, p) && CacheOf(f, p)[d] == e;
    }
  }

  /** A revocation, or a rotation that succeeded. */
  ghost predicate Retires(h: Hash, f: Fleet, op: Op, id: KeyId) {
    match op
    case Revoke(_, target, _, _) => target == id && id in f.store.keys
    case Rotate(_, target, newId, token, _, _) => target == id && RotateError(f.store.keys, id, newId, h(PREFIX + token)) == None
    case _ => false
  }

  lemma RetiredIsSealed(h: Hash, f: Fleet, op: Op, id: KeyId)
    requires FleetSound(f, op.now) && Retires(h, f, op, id)
    ensures Sealed(Step(h, f, op), id, f.store.keys[id].digest, op.now, op.process)
  {
    var after := Step(h, f, op);
    forall p: nat, d | d in CacheOf(after, p) && CacheOf(after, p)[d].profile.id == id
      ensures p != op.process && CacheOf(after, p)[d].cachedAt <= op.now
    {
      assert p != op.process;
      assert CacheSound(f.store.keys, CacheOf(f, p), op.now);
    }
  }

  lemma {:induction false} SealedForever(h: Hash, f: Fleet, ops: seq<Op>, id: KeyId, digest: Digest, t: int, process: nat)
    requires UniqueDigests(f.store.keys) && Sealed(f, id, digest, t, process)
    ensures UniqueDigests(ExecFrom(h, f, ops).store.keys) && Sealed(ExecFrom(h, f, ops), id, digest, t, process)
  {
    if ops != [] {
      var g := ExecFrom(h, f, Init(ops));
      SealedForever(h, f, Init(ops), id, digest, t, process);
      KeysEvolve(h, g, Last(ops));
      StaysSealed(h, g, Last(ops), id, digest, t, process);
    }
  }

  /**
   After a revocation or rotation the key is refused as revoked: at once by the process that did it, and by
   every other process from 60 seconds later on.
   */
  lemma RevocationIsFinal(h: Hash, before: seq<Op>, op: Op, between: seq<Op>, verify: Op, id: KeyId)
    requires Timed(before) && NotBefore(before, op.now) && Retires(h, Exec(h, before), op, id)
    requires verify.Verify? && WellFormed(verify.raw)
    requires h(verify.raw) == Exec(h, before).store.keys[id].digest
    requires verify.process == op.process || 60 <= verify.now - op.now
    requires Timed(before + [op] + between) && NotBefore(before + [op] + between, verify.now)
    ensures Answer(h, Exec(h, before + [op] + between), verify) == Invalid(Revoked)
  {
    var f, ops := Exec(h, before), before + [op] + between;
    RunSound(h, before, op.now);
    RetiredIsSealed(h, f, op, id);
    KeysEvolve(h, f, op);
    SealedForever(h, Step(h, f, op), between, id, f.store.keys[id].digest, op.now, op.process);
    assert Init(before + [op]) == before;
    ExecConcat(h, before + [op], between);
    RunSound(h, ops, verify.now);
    SealedAnswer(h, Exec(h, ops), verify, id, op.now, op.process);
  }

  lemma SealedAnswer(h: Hash, f: Fleet, verify: Op, id: KeyId, t: int, process: nat)
    requires FleetSound(f, verify.now) && verify.Verify? && WellFormed(verify.raw) && Sealed(f, id, h(verify.raw), t, process)
    requires verify.process == process || 60 <= verify.now - t
    ensures Answer(h, f, verify) == Invalid(Revoked)
  {
    var cache, d := CacheOf(f, verify.process), h(verify.raw);
    if d in cache {
      assert CacheSound(f.store.keys, cache, verify.now);
      assert Sound(f.store.keys, d, cache[d]);
      assert cache[d].profile.id == id;
    }
    assert KeyWith(f.store.keys, d) == Some(id);
  }

  lemma {:induction false} ExecConcat(h: Hash, xs: seq<Op>, ys: seq<Op>)
    ensures Exec(h, xs + ys) == ExecFrom(h, Exec(h, xs), ys)
  {
    if ys == [] {
      assert xs + ys == xs;
    } else {
      assert Init(xs + ys) == xs + Init(ys) && Last(xs + ys) == Last(ys);
      ExecConcat(h, xs, Init(ys));
    }
  }

  // ----- a single process -----

  predicate OnlyBy(ops: seq<Op>, process: nat) {
    ops == [] || (OnlyBy(Init(ops), process) && Last(ops).process == process)
  }

  ghost predicate NoRevokedEntry(f: Fleet, process: nat) {
    forall d :: d in CacheOf(f, process) ==> var id := CacheOf(f, process)[d].profile.id; id in f.store.keys && !f.store.keys[id].revoked
  }

  /** Only the retirement of a key revokes it. */
  lemma RevokedBy(h: Hash, f: Fleet, op: Op, id: KeyId)
    requires id in f.store.keys && !f.store.keys[id].revoked
    ensures id in KeysAfter(h, f, op) && (KeysAfter(h, f, op)[id].revoked <==> Retires(h, f, op, id))
  {
  }

  lemma StepKeepsEntriesLive(h: Hash, f: Fleet, op: Op)
    requires UniqueDigests(f.store.keys) && NoRevokedEntry(f, op.process)
    ensures NoRevokedEntry(Step(h, f, op), op.process)
  {
    var after := KeysAfter(h, f, op);
    forall d | d in CacheNext(h, f, op)
      ensures var id := CacheNext(h, f, op)[d].profile.id; id in after && !after[id].revoked
    {
      NewEntries(h, f, op, d);
      var e := CacheNext(h, f, op)[d];
      if Lookup(f.store.keys, d, op.now) == Valid(e.profile) {
        LookupSound(f.store.keys, d, e.profile, op.now);
      }
      RetiredHasNoEntry(h, f, op, d);
      RevokedBy(h, f, op, e.profile.id);
    }
  }

  lemma RetiredHasNoEntry(h: Hash, f: Fleet, op: Op, d: Digest)
    requires d in CacheNext(h, f, op)
    ensures !Retires(h, f, op, CacheNext(h, f, op)[d].profile.id)
  {
  }

  lemma {:induction false} EntriesLive(h: Hash, ops: seq<Op>, process: nat)
    requires OnlyBy(ops, process)
    ensures UniqueDigests(Exec(h, ops).store.keys) && NoRevokedEntry(Exec(h, ops), process)
  {
    if ops != [] {
      EntriesLive(h, Init(ops), process);
      KeysEvolve(h, Exec(h, Init(ops)), Last(ops));
      StepKeepsEntriesLive(h, Exec(h, Init(ops)), Last(ops));
    }
  }

  /** With one process a verdict is the table's answer, but for a key that expired less than 60 seconds ago and is still cached. */
  lemma {:induction false} SoleProcessVerdict(h: Hash, ops: seq<Op>, op: Op)
    requires Timed(ops) && op.Verify? && NotBefore(ops, op.now) && WellFormed(op.raw) && OnlyBy(ops, op.process)
    ensures var f := Exec(h, ops);
      var table := Lookup(f.store.keys, h(op.raw), op.now);
      Answer(h, f, op) != table <==> table == Invalid(Expired) && Remembers(f, op.process, h(op.raw), op.now)
  {
    VerdictOrTable(h, ops, op);
    EntriesLive(h, ops, op.process);
    RunSound(h, ops, op.now);
    var f := Exec(h, ops);
    var cache, d := CacheOf(f, op.process), h(op.raw);
    if Fresh(cache, d, op.now) {
      assert CacheSound(f.store.keys, cache, op.now);
      assert Sound(f.store.keys, d, cache[d]);
      assert KeyWith(f.store.keys, d) == Some(cache[d].profile.id);
    }
  }

  // ----- format and creation -----

  /** A verification answers "invalid format" exactly for a text that does not start with "sk-", and then changes nothing. */
  lemma FormatLaw(h: Hash, ops: seq<Op>, op: Op)
    requires op.Verify?
    ensures var f := Exec(h, ops);
      && (Answer(h, f, op) == Invalid(InvalidFormat) <==> |op.raw| < 3 || op.raw[0] != 's' || op.raw[1] != 'k' || op.raw[2] != '-')
      && (!Answer(h, f, op).Valid? ==> Step(h, f, op).store == f.store && CacheOf(Step(h, f, op), op.process) == CacheOf(f, op.process))
  {
    assert WellFormed(op.raw) <==> |op.raw| >= 3 && op.raw[..3] == "sk-";
    assert |op.raw| >= 3 ==> op.raw[..3] == [op.raw[0], op.raw[1], op.raw[2]];
  }

  /** The key is in the table under its profile and expiry, and not revoked. */
  ghost predicate Live(f: Fleet, digest: Digest, p: Profile, expiresAt: Option<int>) {
    && p.id in f.store.keys && ProfileOf(p.id, f.store.keys[p.id]) == p
    && f.store.keys[p.id].digest == digest && f.store.keys[p.id].expiresAt == expiresAt && !f.store.keys[p.id].revoked
  }

  ghost predicate NeverRetired(h: Hash, before: seq<Op>, more: seq<Op>, id: KeyId) {
    more == [] || (NeverRetired(h, before, Init(more), id) && !Retires(h, Exec(h, before + Init(more)), Last(more), id))
  }

  lemma StaysLive(h: Hash, f: Fleet, op: Op, digest: Digest, p: Profile, expiresAt: Option<int>)
    requires UniqueDigests(f.store.keys) && Live(f, digest, p, expiresAt) && !Retires(h, f, op, p.id)
    ensures Live(Step(h, f, op), digest, p, expiresAt)
  {
    KeysEvolve(h, f, op);
    assert RowEvolves(f.store.keys[p.id], KeysAfter(h, f, op)[p.id], op.now);
    RevokedBy(h, f, op, p.id);
  }

  lemma {:induction false} RunUnique(h: Hash, ops: seq<Op>)
    ensures UniqueDigests(Exec(h, ops).store.keys)
  {
    if ops != [] {
      RunUnique(h, Init(ops));
      KeysEvolve(h, Exec(h, Init(ops)), Last(ops));
    }
  }

  lemma {:induction false} LiveForNow(h: Hash, before: seq<Op>, more: seq<Op>, digest: Digest, p: Profile, expiresAt: Option<int>)
    requires Live(Exec(h, before), digest, p, expiresAt) && NeverRetired(h, before, more, p.id)
    ensures Live(Exec(h, before + more), digest, p, expiresAt)
  {
    if more == [] {
      assert before + more == before;
    } else {
      assert Init(before + more) == before + Init(more) && Last(before + more) == Last(more);
      LiveForNow(h, before, Init(more), digest, p, expiresAt);
      RunUnique(h, before + Init(more));
      StaysLive(h, Exec(h, before + Init(more)), Last(more), digest, p, expiresAt);
    }
  }

  lemma LiveAnswer(h: Hash, f: Fleet, verify: Op, p: Profile, expiresAt: Option<int>)
    requires FleetSound(f, verify.now) && verify.Verify? && WellFormed(verify.raw) && Live(f, h(verify.raw), p, expiresAt)
    ensures var v := Answer(h, f, verify);
      if expiresAt == None || verify.now <= expiresAt.value then v == Valid(p)
      else v == Invalid(Expired) || (v == Valid(p) && verify.now - expiresAt.value < 60)
  {
    var cache, d := CacheOf(f, verify.process), h(verify.raw);
    assert KeyWith(f.store.keys, d) == Some(p.id);
    if Fresh(cache, d, verify.now) {
      assert CacheSound(f.store.keys, cache, verify.now);
      assert Sound(f.store.keys, d, cache[d]);
    }
  }

  function DraftProfile(id: KeyId, d: Draft): Profile {
    Profile(id, d.tenant, d.tag, d.title, if d.permissions == [] then ["read", "write"] else d.permissions)
  }

  lemma CreatedIsLive(h: Hash, f: Fleet, op: Op)
    requires op.Create? && !Taken(f.store.keys, op.id, h(PREFIX + op.token))
    ensures Live(Step(h, f, op), h(PREFIX + op.token), DraftProfile(op.id, op.draft), op.draft.expiresAt)
  {
  }

  /**
   A created key is valid for every process, with the fields it was created with, until its expiry is past or
   someone retires it; a cached verdict outlives the expiry by less than 60 seconds.
   */
  lemma {:induction false} NewKeyVerifies(h: Hash, before: seq<Op>, op: Op, more: seq<Op>, verify: Op)
    requires op.Create? && !Taken(Exec(h, before).store.keys, op.id, h(PREFIX + op.token))
    requires NeverRetired(h, before + [op], more, op.id)
    requires verify.Verify? && verify.raw == PREFIX + op.token
    requires Timed(before + [op] + more) && NotBefore(before + [op] + more, verify.now)
    ensures var v, p, expiresAt := Answer(h, Exec(h, before + [op] + more), verify), DraftProfile(op.id, op.draft), op.draft.expiresAt;
      if expiresAt == None || verify.now <= expiresAt.value then v == Valid(p)
      else v == Invalid(Expired) || (v == Valid(p) && verify.now - expiresAt.value < 60)
  {
    var ops := before + [op];
    assert Init(ops) == before && Last(ops) == op;
    CreatedIsLive(h, Exec(h, before), op);
    LiveForNow(h, ops, more, h(verify.raw), DraftProfile(op.id, op.draft), op.draft.expiresAt);
    RunSound(h, ops + more, verify.now);
    LiveAnswer(h, Exec(h, ops + more), verify, DraftProfile(op.id, op.draft), op.draft.expiresAt);
  }

  // ----- rotation -----

  predicate SameTerms(a: Key, b: Key) {
    a.tenant == b.tenant && a.tag == b.tag && a.permissions == b.permissions && a.expiresAt == b.expiresAt
  }

  /** No stored key has an empty permission list: creation puts the default in its place. */
  ghost predicate Permitted(keys: Keys) {
    forall id :: id in keys ==> keys[id].permissions != []
  }

  lemma RotatePermitted(keys: Keys, id: KeyId, newId: KeyId, digest: Digest, actor: string, now: int)
    requires Permitted(keys)
    ensures Permitted(Rotated(keys, id, newId, digest, actor, now))
  {
  }

  lemma StepPermitted(h: Hash, f: Fleet, op: Op)
    requires Permitted(f.store.keys)
    ensures Permitted(KeysAfter(h, f, op))
  {
    match op
    case Rotate(_, id, newId, token, actor, now) => RotatePermitted(f.store.keys, id, newId, h(PREFIX + token), actor, now);
    case _ =>
  }

  lemma {:induction false} RunPermitted(h: Hash, ops: seq<Op>)
    ensures Permitted(Exec(h, ops).store.keys)
  {
    if ops != [] {
      RunPermitted(h, Init(ops));
      StepPermitted(h, Exec(h, Init(ops)), Last(ops));
    }
  }

  /** A rotation hands over tenant, tag and permissions; it keeps the key's terms exactly when the key had no expiry. */
  lemma {:induction false} RotationKeepsTerms(h: Hash, ops: seq<Op>, op: Op)
    requires op.Rotate? && RotateError(Exec(h, ops).store.keys, op.id, op.newId, h(PREFIX + op.token)) == None
    ensures var f := Exec(h, ops);
      var keys, was, now := KeysAfter(h, f, op), f.store.keys[op.id], KeysAfter(h, f, op)[op.newId];
      && keys.Keys == f.store.keys.Keys + {op.newId} && op.newId !in f.store.keys
      && keys[op.id].revoked && !now.revoked && now.calls == 0
      && keys[op.id].revokedAt == Some(op.now) && keys[op.id].revokedBy == op.actor
      && now.digest == h("sk-" + op.token) && now.createdBy == op.actor && now.title == was.title + " (rotated)"
      && now.tenant == was.tenant && now.tag == was.tag && now.permissions == was.permissions
      && (SameTerms(was, now) <==> was.expiresAt == None)
      && forall t :: Lookup(keys, h(PREFIX + op.token), t) == Valid(ProfileOf(op.newId, now))
  {
    RunUnique(h, ops);
    RunPermitted(h, ops);
    RotatedTerms(h, Exec(h, ops), op);
  }

  lemma RotatedTerms(h: Hash, f: Fleet, op: Op)
    requires UniqueDigests(f.store.keys) && Permitted(f.store.keys)
    requires op.Rotate? && RotateError(f.store.keys, op.id, op.newId, h(PREFIX + op.token)) == None
    ensures var keys, was, now := KeysAfter(h, f, op), f.store.keys[op.id], KeysAfter(h, f, op)[op.newId];
      && keys.Keys == f.store.keys.Keys + {op.newId} && op.newId !in f.store.keys
      && keys[op.id].revoked && !now.revoked && now.calls == 0
      && keys[op.id].revokedAt == Some(op.now) && keys[op.id].revokedBy == op.actor
      && now.digest == h("sk-" + op.token) && now.createdBy == op.actor && now.title == was.title + " (rotated)"
      && now.tenant == was.tenant && now.tag == was.tag && now.permissions == was.permissions
      && (SameTerms(was, now) <==> was.expiresAt == None)
      && forall t :: Lookup(keys, h(PREFIX + op.token), t) == Valid(ProfileOf(op.newId, now))
  {
    var keys := KeysAfter(h, f, op);
    KeysEvolve(h, f, op);
    assert keys[op.newId].digest == h(PREFIX + op.token);
    assert KeyWith(keys, h(PREFIX + op.token)) == Some(op.newId);
  }
}
