/**
 The edge message pipeline end to end: policy, throttle, duplicate filter, dispatch. A message enters
 after normalisation. The HMAC and the tenant registry are functions of the policy; each message carries
 one clock reading.
 */
module Pipeline {
  import opened Common
  import opened Redaction
  import Slug
  import Throttle
  import Reliability

  datatype Message = Message(id: string, kind: string, tenant: string, node: string, payload: Json, signature: string) {
    function Key(): string {
      IdempotencyKey(node, id)
    }
  }

  function IdempotencyKey(node: string, id: string): string {
    node + ":" + id
  }

  /** The outcome of normalisation. */
  datatype Raw = Malformed | Normalized(m: Message)

  const SENSITIVE := {"password", "token", "cookie", "secret", "authorization", "api_key", "apikey", "session", "sessionid"}

  /** `sign` is the HMAC; `tenantOf` is the registered tenant of a node, empty when there is none. */
  datatype Policy = Policy(secrets: map<string, string>, requireSignature: bool,
                           sign: (string, Json) -> string, tenantOf: string -> string)
  {
    predicate SignatureOk(m: Message) {
      if m.signature == "" then !requireSignature
      else m.node in secrets && secrets[m.node] != "" && m.signature == sign(secrets[m.node], m.payload)
    }

    predicate TenantOk(m: Message) {
      tenantOf(m.node) == "" || tenantOf(m.node) == m.tenant
    }

    predicate Allows(m: Message) {
      SignatureOk(m) && TenantOk(m)
    }
  }

  datatype Decision = Invalid | PolicyRejected | Throttled | DuplicateId | Unhandled(m: Message) | Dispatched(m: Message)

  datatype Config = Config(policy: Policy, limits: Throttle.Limits, ttl: nat)

  datatype Event = Register(kind: string) | Receive(raw: Raw, at: int)

  datatype State = State(limiter: Throttle.Limiter, seen: map<string, int>, handlers: set<string>)

  function Cleaned(m: Message): Message {
    m.(payload := Redacted(SENSITIVE, m.payload))
  }

  function AttemptOf(m: Message, at: int): Throttle.Attempt {
    Throttle.Attempt(at, m.node, m.tenant)
  }

  function ArrivalOf(m: Message, at: int): Reliability.Arrival {
    Reliability.Arrival(m.Key(), at)
  }

  /** How far a message gets: refused before the limiter, by it, by the duplicate filter, or not at all. */
  function Decide(c: Config, s: State, raw: Raw, at: int): Decision {
    if raw.Malformed? then Invalid
    else if !c.policy.Allows(raw.m) then PolicyRejected
    else if Throttle.Judge(c.limits, s.limiter, AttemptOf(raw.m, at)) != Throttle.Admitted then Throttled
    else if Reliability.Duplicate(s.seen, ArrivalOf(raw.m, at)) then DuplicateId
    else if raw.m.kind !in s.handlers then Unhandled(Cleaned(raw.m))
    else Dispatched(Cleaned(raw.m))
  }

  function Step(c: Config, s: State, e: Event): State {
    match e
    case Register(kind) => s.(handlers := s.handlers + {kind})
    case Receive(raw, at) =>
      match Decide(c, s, raw, at)
      case Invalid => s
      case PolicyRejected => s
      case Throttled => s.(limiter := Throttle.After(c.limits, s.limiter, AttemptOf(raw.m, at)))
      case _ => s.(limiter := Throttle.After(c.limits, s.limiter, AttemptOf(raw.m, at)),
                   seen := Reliability.After(c.ttl, s.seen, ArrivalOf(raw.m, at)))
  }

  class EdgeMessagePipeline {
    const policy: Policy
    const throttle: Throttle.ThrottleLayer
    const reliability: Reliability.ReliabilityLayer
    var handlers: set<string>

    ghost function Contents(): State
      reads this, throttle, reliability
    {
      State(throttle.State(), reliability.seen, handlers)
    }

    ghost function Settings(): Config {
      Config(policy, throttle.limits, reliability.ttl)
    }

    constructor (policy: Policy, nodeLimit: int, tenantLimit: int, window: int, ttl: int)
      ensures Contents() == State(Throttle.FRESH, map[], {})
      ensures Settings() == Config(policy, Throttle.MakeLimits(nodeLimit, tenantLimit, window), Reliability.MakeTtl(ttl))
      ensures fresh(throttle) && fresh(reliability)
    {
      this.policy := policy;
      throttle := new Throttle.ThrottleLayer(nodeLimit, tenantLimit, window);
      reliability := new Reliability.ReliabilityLayer(ttl);
      handlers := {};
    }

    method RegisterHandler(kind: string)
      modifies this
      ensures Contents() == Step(Settings(), old(Contents()), Register(kind))
    {
      handlers := handlers + {kind};
    }

    method Process(raw: Raw, at: int) returns (d: Decision)
      modifies throttle, reliability
      ensures d == Decide(Settings(), old(Contents()), raw, at)
      ensures Contents() == Step(Settings(), old(Contents()), Receive(raw, at))
    {
      if raw.Malformed? {
        return Invalid;
      }
      if !policy.SignatureOk(raw.m) || !policy.TenantOk(raw.m) {
        return PolicyRejected;
      }
      var m := raw.m.(payload := Redacted(SENSITIVE, raw.m.payload));
      var verdict := throttle.Process(Throttle.Attempt(at, m.node, m.tenant));
      if verdict != Throttle.Admitted {
        return Throttled;
      }
      var passed := reliability.Process(Reliability.Arrival(m.Key(), at));
      if !passed {
        return DuplicateId;
      }
      if m.kind !in handlers {
        return Unhandled(m);
      }
      return Dispatched(m);
    }
  }

  // ----- runs -----

  function Exec(c: Config, events: seq<Event>): State {
    if events == [] then State(Throttle.FRESH, map[], {}) else Step(c, Exec(c, Init(events)), Last(events))
  }

  /** The decision about the i-th event of a run. */
  function DecisionAt(c: Config, events: seq<Event>, i: nat): Decision
    requires i < |events| && events[i].Receive?
  {
    Decide(c, Exec(c, events[..i]), events[i].raw, events[i].at)
  }

  predicate ReachesLimiter(c: Config, s: State, e: Event) {
    e.Receive? && Decide(c, s, e.raw, e.at) !in {Invalid, PolicyRejected}
  }

  predicate ReachesFilter(c: Config, s: State, e: Event) {
    ReachesLimiter(c, s, e) && Decide(c, s, e.raw, e.at) != Throttled
  }

  /** The messages that reach the limiter. */
  function Screened(c: Config, events: seq<Event>): seq<Throttle.Attempt> {
    if events == [] then []
    else if ReachesLimiter(c, Exec(c, Init(events)), Last(events))
    then Screened(c, Init(events)) + [AttemptOf(Last(events).raw.m, Last(events).at)]
    else Screened(c, Init(events))
  }

  /** The messages that reach the duplicate filter. */
  function Arrivals(c: Config, events: seq<Event>): seq<Reliability.Arrival> {
    if events == [] then []
    else if ReachesFilter(c, Exec(c, Init(events)), Last(events))
    then Arrivals(c, Init(events)) + [ArrivalOf(Last(events).raw.m, Last(events).at)]
    else Arrivals(c, Init(events))
  }

  /** Clock readings never decrease. */
  ghost predicate Timed(events: seq<Event>) {
    forall i, j :: 0 <= i <= j < |events| && events[i].Receive? && events[j].Receive? ==> events[i].at <= events[j].at
  }

  /** Clock readings never decrease and none is later than `now`. */
  ghost predicate UpTo(events: seq<Event>, now: int) {
    Timed(events) && forall i :: 0 <= i < |events| && events[i].Receive? ==> events[i].at <= now
  }

  lemma StepParts(c: Config, s: State, e: Event)
    ensures Step(c, s, e).limiter
         == if ReachesLimiter(c, s, e) then Throttle.After(c.limits, s.limiter, AttemptOf(e.raw.m, e.at)) else s.limiter
    ensures Step(c, s, e).seen
         == if ReachesFilter(c, s, e) then Reliability.After(c.ttl, s.seen, ArrivalOf(e.raw.m, e.at)) else s.seen
  {
  }

  /** The two layers inside a pipeline behave as if they ran alone on the messages that reach them. */
  lemma {:induction false} LayersRunAlone(c: Config, events: seq<Event>)
    ensures Exec(c, events).limiter == Throttle.Exec(c.limits, Screened(c, events))
    ensures Exec(c, events).seen == Reliability.Exec(c.ttl, Arrivals(c, events))
  {
    if events != [] {
      var s, e := Exec(c, Init(events)), Last(events);
      LayersRunAlone(c, Init(events));
      StepParts(c, s, e);
      if ReachesLimiter(c, s, e) {
        ThrottleSnoc(c.limits, Screened(c, Init(events)), AttemptOf(e.raw.m, e.at));
      }
      if ReachesFilter(c, s, e) {
        ReliabilitySnoc(c.ttl, Arrivals(c, Init(events)), ArrivalOf(e.raw.m, e.at));
      }
    }
  }

  lemma ThrottleSnoc(limits: Throttle.Limits, ms: seq<Throttle.Attempt>, m: Throttle.Attempt)
    ensures Throttle.Exec(limits, ms + [m]) == Throttle.After(limits, Throttle.Exec(limits, ms), m)
  {
    assert Init(ms + [m]) == ms;
  }

  lemma ReliabilitySnoc(ttl: nat, arrivals: seq<Reliability.Arrival>, a: Reliability.Arrival)
    ensures Reliability.Exec(ttl, arrivals + [a]) == Reliability.After(ttl, Reliability.Exec(ttl, arrivals), a)
    ensures Reliability.Passed(ttl, arrivals + [a])
         == Reliability.Passed(ttl, arrivals) + if Reliability.Duplicate(Reliability.Exec(ttl, arrivals), a) then [] else [a]
  {
    assert Init(arrivals + [a]) == arrivals;
  }

  // ----- duplicates -----

  lemma {:induction false} ArrivalsUpTo(c: Config, events: seq<Event>, now: int)
    requires UpTo(events, now)
    ensures Reliability.UpTo(Arrivals(c, events), now)
  {
    if events != [] {
      var e := Last(events);
      if e.Receive? {
        assert e == events[|events| - 1];
        assert UpTo(Init(events), e.at);
        ArrivalsUpTo(c, Init(events), e.at);
      } else {
        assert UpTo(Init(events), now);
        ArrivalsUpTo(c, Init(events), now);
      }
    }
  }

  /** The message got past the duplicate filter; its handler runs if there is one. */
  predicate Delivered(d: Decision) {
    d.Dispatched? || d.Unhandled?
  }

  lemma DeliveryPasses(c: Config, before: seq<Event>, e: Event)
    requires e.Receive? && Delivered(Decide(c, Exec(c, before), e.raw, e.at))
    ensures ArrivalOf(e.raw.m, e.at) in Reliability.Passed(c.ttl, Arrivals(c, before + [e]))
  {
    var s, a := Exec(c, before), ArrivalOf(e.raw.m, e.at);
    assert Init(before + [e]) == before;
    assert ReachesFilter(c, s, e) && !Reliability.Duplicate(s.seen, a);
    FilterState(c, before);
    ReliabilitySnoc(c.ttl, Arrivals(c, before), a);
  }

  lemma FilterState(c: Config, events: seq<Event>)
    ensures Exec(c, events).seen == Reliability.Exec(c.ttl, Arrivals(c, events))
  {
    LayersRunAlone(c, events);
  }

  lemma PassesStay(c: Config, before: seq<Event>, e: Event, a: Reliability.Arrival)
    requires a in Reliability.Passed(c.ttl, Arrivals(c, before))
    ensures a in Reliability.Passed(c.ttl, Arrivals(c, before + [e]))
  {
    assert Init(before + [e]) == before;
    if ReachesFilter(c, Exec(c, before), e) {
      ReliabilitySnoc(c.ttl, Arrivals(c, before), ArrivalOf(e.raw.m, e.at));
    }
  }

  lemma {:induction false} DeliveriesPassed(c: Config, events: seq<Event>, i: nat)
    requires i < |events| && events[i].Receive? && Delivered(DecisionAt(c, events, i))
    ensures ArrivalOf(events[i].raw.m, events[i].at) in Reliability.Passed(c.ttl, Arrivals(c, events))
  {
    var before, e := Init(events), Last(events);
    assert events == before + [e] && events[..i] == before[..i];
    if i == |before| {
      assert events[..i] == before;
      DeliveryPasses(c, before, e);
    } else {
      DeliveriesPassed(c, before, i);
      PassesStay(c, before, e, ArrivalOf(events[i].raw.m, events[i].at));
    }
  }

  lemma {:induction false} LastReading(events: seq<Event>) returns (now: int)
    requires Timed(events)
    ensures UpTo(events, now)
  {
    if events == [] {
      now := 0;
    } else {
      var before := LastReading(Init(events));
      now := if Last(events).Receive? then Max(before, Last(events).at) else before;
    }
  }

  lemma TimedPrefix(events: seq<Event>, j: nat)
    requires Timed(events) && j < |events| && events[j].Receive?
    ensures UpTo(events[..j], events[j].at)
  {
  }

  /** Two messages with the same key that both get past the filter arrive at least a ttl apart. */
  lemma EndToEndDedupe(c: Config, events: seq<Event>, i: nat, j: nat)
    requires Timed(events) && i < j < |events| && events[i].Receive? && events[j].Receive?
    requires Delivered(DecisionAt(c, events, i)) && Delivered(DecisionAt(c, events, j))
    requires events[i].raw.m.Key() == events[j].raw.m.Key()
    ensures events[i].at + c.ttl <= events[j].at
  {
    var before, a := events[..j], ArrivalOf(events[j].raw.m, events[j].at);
    assert before[..i] == events[..i];
    DeliveriesPassed(c, before, i);
    TimedPrefix(events, j);
    ArrivalsUpTo(c, before, a.at);
    FilterState(c, before);
    Reliability.DroppedOnlyWithinTtl(c.ttl, Arrivals(c, before), a);
    assert Reliability.Arrival(a.key, events[i].at) in Reliability.Passed(c.ttl, Arrivals(c, before));
  }

  lemma {:induction false} PassesAreDeliveries(c: Config, events: seq<Event>, a: Reliability.Arrival) returns (i: nat)
    requires a in Reliability.Passed(c.ttl, Arrivals(c, events))
    ensures i < |events| && events[i].Receive? && events[i].raw.Normalized?
    ensures a == ArrivalOf(events[i].raw.m, events[i].at) && Delivered(DecisionAt(c, events, i))
  {
    var s, e := Exec(c, Init(events)), Last(events);
    LayersRunAlone(c, Init(events));
    if ReachesFilter(c, s, e) {
      ReliabilitySnoc(c.ttl, Arrivals(c, Init(events)), ArrivalOf(e.raw.m, e.at));
    }
    if a in Reliability.Passed(c.ttl, Arrivals(c, Init(events))) {
      i := PassesAreDeliveries(c, Init(events), a);
      assert Init(events)[..i] == events[..i];
    } else {
      i := |events| - 1;
      assert events[..i] == Init(events);
    }
  }

  /** A message is reported as duplicate only if one with its key got through less than a ttl before. */
  lemma DuplicateHasOriginal(c: Config, events: seq<Event>, j: nat) returns (i: nat)
    requires Timed(events) && j < |events| && events[j].Receive?
    requires DecisionAt(c, events, j) == DuplicateId
    ensures i < j && events[i].Receive? && events[i].raw.Normalized? && Delivered(DecisionAt(c, events, i))
    ensures events[i].raw.m.Key() == events[j].raw.m.Key() && events[j].at < events[i].at + c.ttl
  {
    var before, a := events[..j], ArrivalOf(events[j].raw.m, events[j].at);
    TimedPrefix(events, j);
    ArrivalsUpTo(c, before, a.at);
    FilterState(c, before);
    Reliability.DroppedOnlyWithinTtl(c.ttl, Arrivals(c, before), a);
    var t :| Reliability.Arrival(a.key, t) in Reliability.Passed(c.ttl, Arrivals(c, before)) && a.at < t + c.ttl;
    i := PassesAreDeliveries(c, before, Reliability.Arrival(a.key, t));
    assert before[..i] == events[..i];
  }

  // ----- keys -----

  predicate ColonFree(s: string) {
    ':' !in s
  }

  /** Keys determine node and message when the node ids have no colon. */
  lemma KeyIsInjective(node: string, id: string, node': string, id': string)
    requires ColonFree(node) && ColonFree(node')
    requires IdempotencyKey(node, id) == IdempotencyKey(node', id')
    ensures node == node' && id == id'
  {
    var key := IdempotencyKey(node, id);
    assert key[|node|] == ':' && key[|node'|] == ':';
    assert forall i :: 0 <= i < |node| ==> key[i] == node[i];
    assert forall i :: 0 <= i < |node'| ==> key[i] == node'[i];
    assert node == key[..|node|] && node' == key[..|node'|];
    assert id == key[|node| + 1..] && id' == key[|node'| + 1..];
  }

  /** One id continues the other across a colon. */
  predicate Continues(node: string, id: string, node': string, id': string) {
    node + ":" <= node' && id == node'[|node| + 1..] + ":" + id'
  }

  /** In general two keys are equal exactly for the same node and message, or when one pair continues the other. */
  lemma KeyClash(node: string, id: string, node': string, id': string)
    ensures IdempotencyKey(node, id) == IdempotencyKey(node', id') <==>
            (node == node' && id == id') || Continues(node, id, node', id') || Continues(node', id', node, id)
  {
    if |node| < |node'| {
      LongerNode(node, id, node', id');
    } else if |node'| < |node| {
      LongerNode(node', id', node, id);
    } else if IdempotencyKey(node, id) == IdempotencyKey(node', id') {
      var key := IdempotencyKey(node, id);
      assert node == key[..|node|] && id == key[|node| + 1..];
      assert node' == key[..|node'|] && id' == key[|node'| + 1..];
    }
  }

  lemma LongerNode(node: string, id: string, node': string, id': string)
    requires |node| < |node'|
    ensures IdempotencyKey(node, id) == IdempotencyKey(node', id') <==> Continues(node, id, node', id')
  {
    var key, key' := IdempotencyKey(node, id), IdempotencyKey(node', id');
    if key == key' {
      assert node' == key[..|node'|];
      assert node + ":" == key[..|node| + 1] == node'[..|node| + 1];
      assert id == key[|node| + 1..] == key'[|node| + 1..];
      assert key'[|node| + 1..] == node'[|node| + 1..] + ":" + id';
    }
    if node + ":" <= node' && id == node'[|node| + 1..] + ":" + id' {
      assert node' == node + ":" + node'[|node| + 1..];
      assert key == key';
    }
  }

  /** Message "b:x" of node "a" and message "x" of node "a:b": whichever comes second within the ttl is dropped as a duplicate. */
  lemma ForeignDuplicate(c: Config, m: Message, m': Message, at: int)
    requires m.node == "a" && m.id == "b:x" && m'.node == "a:b" && m'.id == "x"
    requires c.policy.Allows(m) && c.policy.Allows(m') && c.limits.node >= 1 && c.limits.tenant >= 2 && c.ttl >= 1
    ensures var events := [Receive(Normalized(m), at), Receive(Normalized(m'), at)];
      Delivered(DecisionAt(c, events, 0)) && DecisionAt(c, events, 1) == DuplicateId
  {
    var first, second := Receive(Normalized(m), at), Receive(Normalized(m'), at);
    var s := Exec(c, []);
    assert [first, second][..0] == [] && [first, second][..1] == [first] && Init([first]) == [];
    assert m.Key() == m'.Key() == "a:b:x";
    FirstIsAdmitted(c.limits, AttemptOf(m, at), AttemptOf(m', at));
    assert Delivered(Decide(c, s, first.raw, at));
    assert Exec(c, [first]) == Step(c, s, first);
  }

  lemma FirstIsAdmitted(limits: Throttle.Limits, m: Throttle.Attempt, m': Throttle.Attempt)
    requires limits.node >= 1 && limits.tenant >= 2 && m.node != m'.node && m.at == m'.at
    ensures Throttle.Judge(limits, Throttle.FRESH, m) == Throttle.Admitted
    ensures Throttle.Judge(limits, Throttle.After(limits, Throttle.FRESH, m), m') == Throttle.Admitted
  {
    assert Throttle.Live(limits, Throttle.FRESH, Throttle.Node, m) == [] && Throttle.Live(limits, Throttle.FRESH, Throttle.Tenant, m) == [];
    var s := Throttle.After(limits, Throttle.FRESH, m);
    assert Throttle.Queue(s, Throttle.Node, m'.node) == [];
    assert |Throttle.Queue(s, Throttle.Tenant, m'.tenant)| <= 1;
  }

  // ----- payloads and rates -----

  /** The leaves that no sensitive key leads to are the same. */
  ghost predicate SameOutside(names: set<string>, v: Json, w: Json) {
    forall path :: !Exposes(names, path) && At(v, path).Some? && IsLeaf(At(v, path).value) ==> At(w, path) == At(v, path)
  }

  predicate IsLeaf(v: Json) {
    !v.Object? && !v.List?
  }

  /**
   A message is refused by the policy exactly when its signature or its tenant is wrong: a signature is needed
   only if the policy says so, a given one must be that of the node's non-empty secret over the payload as it
   came in, and a node that is registered with a tenant may speak for that tenant only.
   */
  lemma RejectedExactly(c: Config, events: seq<Event>, i: nat)
    requires i < |events| && events[i].Receive? && events[i].raw.Normalized?
    ensures var p, m := c.policy, events[i].raw.m;
      DecisionAt(c, events, i) == PolicyRejected <==>
        || (m.signature == "" && p.requireSignature)
        || (m.signature != "" && (m.node !in p.secrets || p.secrets[m.node] == "" || m.signature != p.sign(p.secrets[m.node], m.payload)))
        || (p.tenantOf(m.node) != "" && p.tenantOf(m.node) != m.tenant)
  {
  }

  lemma {:induction false} HandlersAreRegistered(c: Config, events: seq<Event>, kind: string)
    ensures kind in Exec(c, events).handlers <==> Register(kind) in events
  {
    if events != [] {
      HandlersAreRegistered(c, Init(events), kind);
      assert events == Init(events) + [Last(events)];
    }
  }

  /** A message that gets through is dispatched exactly when a handler for its kind was registered before. */
  lemma DispatchedIfRegistered(c: Config, events: seq<Event>, i: nat)
    requires i < |events| && events[i].Receive? && Delivered(DecisionAt(c, events, i))
    ensures DecisionAt(c, events, i).Dispatched? <==> exists j :: 0 <= j < i && events[j] == Register(events[i].raw.m.kind)
  {
    HandlersAreRegistered(c, events[..i], events[i].raw.m.kind);
    assert Register(events[i].raw.m.kind) in events[..i] <==> exists j :: 0 <= j < i && events[..i][j] == Register(events[i].raw.m.kind);
  }

  /** What a handler sees: a message that passed the policy, its payload redacted and otherwise unchanged. */
  lemma HandlersSeeRedactedPayloads(c: Config, s: State, raw: Raw, at: int)
    requires Delivered(Decide(c, s, raw, at))
    ensures raw.Normalized?
    ensures raw.m.signature == "" ==> !c.policy.requireSignature
    ensures raw.m.signature != "" ==>
      raw.m.node in c.policy.secrets && c.policy.secrets[raw.m.node] != ""
      && raw.m.signature == c.policy.sign(c.policy.secrets[raw.m.node], raw.m.payload)
    ensures c.policy.tenantOf(raw.m.node) in {"", raw.m.tenant}
    ensures var m := Decide(c, s, raw, at).m;
      m == raw.m.(payload := m.payload) && Clean(SENSITIVE, m.payload) && SameOutside(SENSITIVE, raw.m.payload, m.payload)
  {
    RedactedIsClean(SENSITIVE, raw.m.payload);
    forall path | !Exposes(SENSITIVE, path)
      ensures At(Redacted(SENSITIVE, raw.m.payload), path)
           == match At(raw.m.payload, path) case None => None case Some(w) => Some(Redacted(SENSITIVE, w))
    {
      ShapeKept(SENSITIVE, raw.m.payload, path);
    }
  }

  /** No handler sees a value under one of the nine sensitive names, in any spelling of case, at any depth. */
  lemma HandlersSeeNoSecrets(c: Config, s: State, raw: Raw, at: int, path: seq<Hop>, key: string)
    requires Delivered(Decide(c, s, raw, at))
    requires Slug.Lower(key) in {"password", "token", "cookie", "secret", "authorization", "api_key", "apikey", "session", "sessionid"}
    ensures At(Decide(c, s, raw, at).m.payload, path + [Field(key)]) in {None, Some(Text("[REDACTED]"))}
  {
    NothingSensitiveSurvives(SENSITIVE, raw.m.payload, path, key);
  }

  /** The times at which messages of one node or tenant were delivered. */
  function DeliveryTimes(c: Config, events: seq<Event>, scope: Throttle.Scope, key: string): seq<int> {
    if events == [] then []
    else
      var before, e := DeliveryTimes(c, Init(events), scope, key), Last(events);
      if Delivers(c, Exec(c, Init(events)), e, scope, key) then before + [e.at] else before
  }

  predicate Delivers(c: Config, s: State, e: Event, scope: Throttle.Scope, key: string) {
    e.Receive? && Delivered(Decide(c, s, e.raw, e.at)) && Throttle.KeyOf(scope, AttemptOf(e.raw.m, e.at)) == key
  }

  lemma {:induction false} DeliveriesWereAdmitted(c: Config, events: seq<Event>, scope: Throttle.Scope, key: string, lo: int, hi: int)
    ensures Throttle.Count(DeliveryTimes(c, events, scope, key), lo, hi)
         <= Throttle.Count(AdmissionTimes(c, Screened(c, events), scope, key), lo, hi)
  {
    if events != [] {
      var before, e := Init(events), Last(events);
      assert events == before + [e];
      DeliveriesWereAdmitted(c, before, scope, key, lo, hi);
      DeliveryAdmitted(c, before, e, scope, key, lo, hi);
    }
  }

  lemma DeliveryAdmitted(c: Config, before: seq<Event>, e: Event, scope: Throttle.Scope, key: string, lo: int, hi: int)
    requires Throttle.Count(DeliveryTimes(c, before, scope, key), lo, hi)
          <= Throttle.Count(AdmissionTimes(c, Screened(c, before), scope, key), lo, hi)
    ensures Throttle.Count(DeliveryTimes(c, before + [e], scope, key), lo, hi)
         <= Throttle.Count(AdmissionTimes(c, Screened(c, before + [e]), scope, key), lo, hi)
  {
    var s := Exec(c, before);
    assert Init(before + [e]) == before;
    if Delivers(c, s, e, scope, key) {
      CountSnoc(DeliveryTimes(c, before, scope, key), e.at, lo, hi);
    }
    if ReachesLimiter(c, s, e) {
      LimiterState(c, before);
      AdmissionStep(c, Screened(c, before), AttemptOf(e.raw.m, e.at), scope, key, lo, hi);
      assert Delivers(c, s, e, scope, key) ==> Throttle.Judge(c.limits, s.limiter, AttemptOf(e.raw.m, e.at)) == Throttle.Admitted;
    }
  }

  function AdmissionTimes(c: Config, ms: seq<Throttle.Attempt>, scope: Throttle.Scope, key: string): seq<int> {
    Throttle.Log(Throttle.History(c.limits, ms), scope, key)
  }

  lemma LimiterState(c: Config, events: seq<Event>)
    ensures Exec(c, events).limiter == Throttle.Exec(c.limits, Screened(c, events))
  {
    LayersRunAlone(c, events);
  }

  lemma CountSnoc(log: seq<int>, t: int, lo: int, hi: int)
    ensures Throttle.Count(log + [t], lo, hi) == Throttle.Count(log, lo, hi) + if lo <= t <= hi then 1 else 0
  {
    assert Init(log + [t]) == log;
  }

  lemma AdmissionStep(c: Config, ms: seq<Throttle.Attempt>, m: Throttle.Attempt, scope: Throttle.Scope, key: string, lo: int, hi: int)
    ensures Throttle.Count(AdmissionTimes(c, ms + [m], scope, key), lo, hi)
         == Throttle.Count(AdmissionTimes(c, ms, scope, key), lo, hi)
            + if Throttle.Judge(c.limits, Throttle.Exec(c.limits, ms), m) == Throttle.Admitted
                 && Throttle.KeyOf(scope, m) == key && lo <= m.at <= hi then 1 else 0
  {
    assert Init(ms + [m]) == ms;
    var h := Throttle.History(c.limits, ms);
    Throttle.LogStep(h, m, scope, key);
    CountSnoc(Throttle.Log(h, scope, key), m.at, lo, hi);
  }

  lemma {:induction false} ScreenedMonotone(c: Config, events: seq<Event>, now: int)
    requires UpTo(events, now)
    ensures Throttle.Monotone(Screened(c, events)) && forall i :: 0 <= i < |Screened(c, events)| ==> Screened(c, events)[i].at <= now
  {
    if events != [] {
      var e := Last(events);
      if e.Receive? {
        assert e == events[|events| - 1];
        assert UpTo(Init(events), e.at);
        ScreenedMonotone(c, Init(events), e.at);
      } else {
        assert UpTo(Init(events), now);
        ScreenedMonotone(c, Init(events), now);
      }
    }
  }

  lemma AdmissionRate(c: Config, ms: seq<Throttle.Attempt>, scope: Throttle.Scope, key: string, start: int)
    requires Throttle.Monotone(ms)
    ensures Throttle.Count(AdmissionTimes(c, ms, scope, key), start, start + c.limits.window) <= Throttle.LimitOf(scope, c.limits)
  {
    Throttle.SlidingWindowLimit(c.limits, ms, scope, key, start);
  }

  /** End to end: no closed window sees more deliveries of a node or tenant than its limit. */
  lemma DeliveryRate(c: Config, events: seq<Event>, scope: Throttle.Scope, key: string, start: int)
    requires Timed(events)
    ensures Throttle.Count(DeliveryTimes(c, events, scope, key), start, start + c.limits.window) <= Throttle.LimitOf(scope, c.limits)
  {
    var ms, end := Screened(c, events), start + c.limits.window;
    assert Throttle.Monotone(ms) by {
      var now := LastReading(events);
      ScreenedMonotone(c, events, now);
    }
    AdmissionRate(c, ms, scope, key, start);
    DeliveriesWereAdmitted(c, events, scope, key, start, end);
  }
}
