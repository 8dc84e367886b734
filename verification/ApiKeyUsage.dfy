/** Usage counters over whole runs: cached and uncached verdicts are all counted, once. */
module ApiKeyUsage {
  import opened Common
  import opened Sums
  import opened ApiKeys
  import opened ApiKeyFleet

  ghost predicate Grants(h: Hash, f: Fleet, op: Op, id: KeyId) {
    op.Verify? && Answer(h, f, op).Valid? && Answer(h, f, op).profile.id == id
  }

  /** The number of valid verdicts for a key in a run. */
  ghost function Verdicts(h: Hash, ops: seq<Op>, id: KeyId): nat {
    if ops == [] then 0
    else Verdicts(h, Init(ops), id) + if Grants(h, Exec(h, Init(ops)), Last(ops), id) then 1 else 0
  }

  function Calls(keys: Keys, id: KeyId): int {
    if id in keys then keys[id].calls else 0
  }

  ghost function Daily(usage: UsageTable, id: KeyId): map<UsageDay, int> {
    map day | day in usage && day.id == id :: usage[day]
  }

  lemma RecordedDaily(usage: UsageTable, used: KeyId, id: KeyId, now: int)
    ensures Sum(Daily(RecordedUsage(usage, used, now), id)) == Sum(Daily(usage, id)) + if used == id then 1 else 0
  {
    var day := UsageDay(used, now / DAY);
    var after := RecordedUsage(usage, used, now);
    if used == id {
      assert Daily(after, id) == Daily(usage, id)[day := after[day]];
      SumUpdate(Daily(usage, id), day, after[day]);
    } else {
      assert Daily(after, id) == Daily(usage, id);
    }
  }

  lemma GrantedKeyExists(h: Hash, f: Fleet, op: Op)
    requires FleetSound(f, op.now) && op.Verify? && Answer(h, f, op).Valid?
    ensures Answer(h, f, op).profile.id in f.store.keys
  {
    var cache, d := CacheOf(f, op.process), h(op.raw);
    if Fresh(cache, d, op.now) {
      assert CacheSound(f.store.keys, cache, op.now);
      assert Sound(f.store.keys, d, cache[d]);
    } else {
      LookupSound(f.store.keys, d, Answer(h, f, op).profile, op.now);
    }
  }

  lemma StepCalls(h: Hash, f: Fleet, op: Op, id: KeyId)
    requires FleetSound(f, op.now)
    ensures Calls(KeysAfter(h, f, op), id) == Calls(f.store.keys, id) + if Grants(h, f, op, id) then 1 else 0
  {
    if op.Verify? && Answer(h, f, op).Valid? {
      GrantedKeyExists(h, f, op);
    }
  }

  lemma StepDaily(h: Hash, f: Fleet, op: Op, id: KeyId)
    ensures Sum(Daily(UsageAfter(h, f, op), id)) == Sum(Daily(f.store.usage, id)) + if Grants(h, f, op, id) then 1 else 0
  {
    if op.Verify? && Answer(h, f, op).Valid? {
      RecordedDaily(f.store.usage, Answer(h, f, op).profile.id, id, op.now);
    }
  }

  /** A key's call counter, the sum of its daily rows and the number of valid verdicts it got are always equal. */
  lemma {:induction false} UsageAccounting(h: Hash, ops: seq<Op>, id: KeyId)
    requires Timed(ops)
    ensures Calls(Exec(h, ops).store.keys, id) == Verdicts(h, ops, id) == Sum(Daily(Exec(h, ops).store.usage, id))
  {
    if ops == [] {
      assert Daily(map[], id) == map[];
    } else {
      var f, op := Exec(h, Init(ops)), Last(ops);
      UsageAccounting(h, Init(ops), id);
      RunSound(h, Init(ops), op.now);
      StepCalls(h, f, op, id);
      StepDaily(h, f, op, id);
    }
  }

  // ----- by day, and the last use -----

  /** The valid verdicts for a key from one time up to another. */
  ghost function VerdictsBetween(h: Hash, ops: seq<Op>, id: KeyId, from: int, to: int): nat {
    if ops == [] then 0
    else
      VerdictsBetween(h, Init(ops), id, from, to)
      + if Grants(h, Exec(h, Init(ops)), Last(ops), id) && from <= Last(ops).now < to then 1 else 0
  }

  function DayCount(usage: UsageTable, id: KeyId, day: int): int {
    if UsageDay(id, day) in usage then usage[UsageDay(id, day)] else 0
  }

  /** The daily row of a key is the number of valid verdicts it got on that day. */
  lemma {:induction false} DailyAccounting(h: Hash, ops: seq<Op>, id: KeyId, day: int)
    ensures DayCount(Exec(h, ops).store.usage, id, day) == VerdictsBetween(h, ops, id, day * 86_400, (day + 1) * 86_400)
  {
    if ops != [] {
      DailyAccounting(h, Init(ops), id, day);
      DayStep(h, Exec(h, Init(ops)), Last(ops), id, day);
    }
  }

  lemma DayStep(h: Hash, f: Fleet, op: Op, id: KeyId, day: int)
    ensures DayCount(UsageAfter(h, f, op), id, day)
         == DayCount(f.store.usage, id, day) + if Grants(h, f, op, id) && day * 86_400 <= op.now < (day + 1) * 86_400 then 1 else 0
  {
    assert op.now / DAY == day <==> day * 86_400 <= op.now < (day + 1) * 86_400;
  }

  ghost function LastGrant(h: Hash, ops: seq<Op>, id: KeyId): Option<int> {
    if ops == [] then None
    else if Grants(h, Exec(h, Init(ops)), Last(ops), id) then Some(Last(ops).now)
    else LastGrant(h, Init(ops), id)
  }

  function LastUse(keys: Keys, id: KeyId): Option<int> {
    if id in keys then keys[id].lastUsed else None
  }

  lemma StepLastUse(h: Hash, f: Fleet, op: Op, id: KeyId)
    requires FleetSound(f, op.now)
    ensures LastUse(KeysAfter(h, f, op), id) == if Grants(h, f, op, id) then Some(op.now) else LastUse(f.store.keys, id)
  {
    if op.Verify? && Answer(h, f, op).Valid? {
      GrantedKeyExists(h, f, op);
    }
  }

  /** The last use stored with a key is the time of its last valid verdict. */
  lemma {:induction false} LastUseIsLastGrant(h: Hash, ops: seq<Op>, id: KeyId)
    requires Timed(ops)
    ensures LastUse(Exec(h, ops).store.keys, id) == LastGrant(h, ops, id)
  {
    if ops != [] {
      LastUseIsLastGrant(h, Init(ops), id);
      RunSound(h, Init(ops), Last(ops).now);
      StepLastUse(h, Exec(h, Init(ops)), Last(ops), id);
    }
  }

  // ----- where a key comes from and how it ends -----

  datatype Retirement = Retirement(at: int, actor: string)

  ghost function Retired(h: Hash, ops: seq<Op>, id: KeyId): Option<Retirement> {
    if ops == [] then None
    else if Retires(h, Exec(h, Init(ops)), Last(ops), id) then Some(Retirement(Last(ops).now, Last(ops).actor))
    else Retired(h, Init(ops), id)
  }

  ghost predicate RetirementFits(keys: Keys, id: KeyId, r: Option<Retirement>) {
    if id in keys then
      && (keys[id].revoked <==> r.Some?)
      && (r.Some? ==> keys[id].revokedAt == Some(r.value.at) && keys[id].revokedBy == r.value.actor)
    else r == None
  }

  lemma StepRetirement(h: Hash, f: Fleet, op: Op, id: KeyId, r: Option<Retirement>)
    requires RetirementFits(f.store.keys, id, r)
    ensures RetirementFits(KeysAfter(h, f, op), id, if Retires(h, f, op, id) then Some(Retirement(op.now, op.actor)) else r)
  {
  }

  /** A key is revoked exactly if it was ever revoked or rotated; time and actor are those of the last such call. */
  lemma {:induction false} RevokedByLastRetirement(h: Hash, ops: seq<Op>, id: KeyId)
    ensures RetirementFits(Exec(h, ops).store.keys, id, Retired(h, ops, id))
  {
    if ops != [] {
      RevokedByLastRetirement(h, Init(ops), id);
      StepRetirement(h, Exec(h, Init(ops)), Last(ops), id, Retired(h, Init(ops), id));
    }
  }

  /** A creation inserts one row with the fields asked for and the digest of "sk-" and the token; all other rows stay. */
  lemma CreationLaw(h: Hash, ops: seq<Op>, op: Op)
    requires op.Create?
    ensures var before, after, d := Exec(h, ops).store.keys, Exec(h, ops + [op]).store.keys, op.draft;
      if op.id in before || exists a :: a in before && before[a].digest == h("sk-" + op.token) then after == before
      else
        && after.Keys == before.Keys + {op.id} && (forall a :: a in before ==> after[a] == before[a])
        && after[op.id].digest == h("sk-" + op.token) && after[op.id].tenant == d.tenant && after[op.id].title == d.title
        && after[op.id].tag == d.tag && after[op.id].createdBy == d.createdBy && after[op.id].expiresAt == d.expiresAt
        && after[op.id].permissions == (if d.permissions == [] then ["read", "write"] else d.permissions)
        && !after[op.id].revoked && after[op.id].calls == 0 && after[op.id].lastUsed == None
  {
    Snoc(ops, [op]);
    assert Init([op]) == [] && ops + [] == ops;
  }
}
