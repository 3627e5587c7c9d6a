/** The decision path: an allow-only cache in front of a policy oracle, under a policy manager that
    clears the cache whenever trust changes. */
module DecisionServices {
  import opened Results
  import opened TrustStates
  import opened DecisionCaches
  import opened PolicyManagers

  /** What the oracle's response parser lets through. */
  datatype Verdict = Verdict(allowed: bool, reason: string, obligations: seq<string>, ttl: int)

  predicate Conforms(v: Verdict) {
    (v.allowed <==> v.reason == "ALLOW") && 0 <= v.ttl <= 30
  }

  type OracleVerdict = v: Verdict | Conforms(v) witness Verdict(true, "ALLOW", [], 0)

  datatype OracleFailure = NonSuccess | ResponseInvalid | OracleUnavailable

  function CodeOf(failure: OracleFailure): string {
    match failure
    case NonSuccess => "OPA_NON_SUCCESS"
    case ResponseInvalid => "OPA_RESPONSE_INVALID"
    case OracleUnavailable => "OPA_UNAVAILABLE"
  }

  /** The oracle's answer to one query: a verdict or a failure. */
  type Answer = Result<OracleVerdict, OracleFailure>

  datatype Subject = Subject(organizationId: string, subjectId: string)

  datatype Decision = Decision(
    organizationId: string, subjectId: string, query: Query, policyDigest: string, allowed: bool, reason: string,
    obligations: seq<string>, evaluatedAt: int, expiresAt: int)

  datatype AuditRecord = AuditRecord(decision: Decision, cacheHit: bool)

  datatype Reply =
    | PolicyRefused(code: TrustDenial)
    | AuditCommitFailed
    | Decided(decision: Decision)
    | Trusted(policy: Policy)
    | Done

  datatype World = World(policies: Policies, items: seq<Item>, records: seq<AuditRecord>)

  const START: World := World(map[], [], [])

  datatype Event =
    | Activate(artifact: Policy, now: int)
    | Revoke(organizationId: string, digest: string)
    | Rollback(organizationId: string, now: int)
    /** The readiness probe, which only asks for the active policy. */
    | Probe(organizationId: string, now: int)
    | Decide(who: Subject, query: Query, now: int, answer: Answer, storeFails: bool)

  /* ---------- One decision ---------- */

  function KeyOf(who: Subject, query: Query, policy: Policy): CacheKey {
    CacheKey(who.organizationId, who.subjectId, query, policy.digest)
  }

  function Min(a: int, b: int): int {
    if a <= b then a else b
  }

  function Max(a: int, b: int): int {
    if a <= b then b else a
  }

  /** `_response`: a decision lasts as long as its verdict, at least a second, and never longer
      than the policy. */
  function DecisionOf(who: Subject, query: Query, policy: Policy, v: Verdict, now: int): Decision {
    Decision(who.organizationId, who.subjectId, query, policy.digest, v.allowed, v.reason, v.obligations, now,
             Min(policy.expiresAt, now + Max(1, if v.allowed then v.ttl else 0)))
  }

  function VerdictOf(answer: Answer): Verdict {
    match answer
    case Ok(v) => v
    case Err(failure) => Verdict(false, CodeOf(failure), [], 0)
  }

  function CachedVerdict(outcome: Outcome, now: int): Verdict {
    Verdict(true, outcome.reason, outcome.obligations, Max(0, outcome.expiresAt - now))
  }

  /** Mutations are never looked up. */
  function Hit(items: seq<Item>, key: CacheKey, now: int): Option<Outcome> {
    if key.query.mutation then None else Lookup(items, key, now)
  }

  function ItemsAfter(items: seq<Item>, key: CacheKey, answer: Answer, now: int, bounds: Bounds): seq<Item>
    requires BoundsOk(bounds)
  {
    if key.query.mutation then items
    else
      var looked := AfterGet(items, key, now);
      if Lookup(items, key, now).None? && answer.Ok? && answer.value.allowed
      then AfterPut(looked, key, answer.value.reason, answer.value.obligations, now, answer.value.ttl, bounds)
      else looked
  }

  function DecisionIn(w: World, e: Event, policy: Policy): Decision
    requires e.Decide?
  {
    var hit := Hit(w.items, KeyOf(e.who, e.query, policy), e.now);
    var verdict := if hit.Some? then CachedVerdict(hit.value, e.now) else VerdictOf(e.answer);
    DecisionOf(e.who, e.query, policy, verdict, e.now)
  }

  function DecideStep(w: World, e: Event, bounds: Bounds): (World, Reply)
    requires e.Decide? && BoundsOk(bounds)
  {
    match ActiveIn(StateOf(w.policies, e.who.organizationId), e.now)
    case Err(code) => (if code == Expired then w.(items := []) else w, PolicyRefused(code))
    case Ok(policy) =>
      var key := KeyOf(e.who, e.query, policy);
      var decision := DecisionIn(w, e, policy);
      var w' := w.(items := ItemsAfter(w.items, key, e.answer, e.now, bounds));
      if e.storeFails then (w', AuditCommitFailed)
      else (w'.(records := w.records + [AuditRecord(decision, Hit(w.items, key, e.now).Some?)]), Decided(decision))
  }

  /* ---------- Runs ---------- */

  function Step(w: World, e: Event, bounds: Bounds): (World, Reply)
    requires BoundsOk(bounds)
  {
    match e
    case Decide(_, _, _, _, _) => DecideStep(w, e, bounds)
    case Activate(artifact, now) =>
      (match InForce(artifact, now, NotYetEffective)
       case Err(code) => (w, PolicyRefused(code))
       case Ok(_) =>
         match AfterActivate(StateOf(w.policies, artifact.organizationId), artifact)
         case Err(code) => (w, PolicyRefused(code))
         case Ok(state) =>
           (w.(policies := w.policies[artifact.organizationId := state], items := []), Trusted(artifact)))
    case Revoke(o, digest) =>
      (w.(policies := w.policies[o := AfterRevoke(StateOf(w.policies, o), digest)], items := []), Done)
    case Rollback(o, now) =>
      (match AfterRollback(StateOf(w.policies, o), now)
       case Err(code) => (w, PolicyRefused(code))
       case Ok(state) =>
         (w.(policies := w.policies[o := state], items := []),
          if state.active.Some? then Trusted(state.active.value) else Done))
    case Probe(o, now) =>
      match ActiveIn(StateOf(w.policies, o), now)
      case Err(code) => (if code == Expired then w.(items := []) else w, PolicyRefused(code))
      case Ok(policy) => (w, Trusted(policy))
  }

  function Run(es: seq<Event>, bounds: Bounds): World
    requires BoundsOk(bounds)
  {
    if es == [] then START else Step(Run(es[..|es| - 1], bounds), es[|es| - 1], bounds).0
  }

  /* ---------- The service object ---------- */

  class DecisionStore {
    var records: seq<AuditRecord>

    constructor ()
      ensures records == []
    {
      records := [];
    }

    /** One atomic commit of decision, audit record and outbox entry. */
    method Record(record: AuditRecord, fails: bool) returns (ok: bool)
      modifies this
      ensures ok == !fails
      ensures records == if fails then old(records) else old(records) + [record]
    {
      if !fails {
        records := records + [record];
      }
      return !fails;
    }
  }

  class DecisionService {
    const policies: PolicyManager
    const cache: DecisionCache
    const store: DecisionStore

    ghost predicate Valid()
      reads this, cache
    {
      policies.cache == cache && cache.Valid()
    }

    function View(): World
      reads this, policies, cache, store
    {
      World(policies.states, cache.items, store.records)
    }

    constructor (policies: PolicyManager, store: DecisionStore)
      requires policies.cache.Valid()
      ensures Valid() && this.policies == policies && this.store == store && cache == policies.cache
    {
      this.policies := policies;
      this.cache := policies.cache;
      this.store := store;
    }

    method Decide(who: Subject, query: Query, now: int, answer: Answer, storeFails: bool) returns (reply: Reply)
      requires Valid()
      modifies cache, store
      ensures Valid()
      ensures (View(), reply) == Step(old(View()), Event.Decide(who, query, now, answer, storeFails), cache.bounds)
    {
      var active := policies.Active(who.organizationId, now);
      if active.Err? {
        return PolicyRefused(active.code);
      }
      var policy := active.value;
      var key := KeyOf(who, query, policy);
      var outcome, cacheHit := None, false;
      if !query.mutation {
        var cached := cache.Get(key, now);
        if cached.Some? {
          outcome := Some(CachedVerdict(cached.value, now));
          cacheHit := true;
        }
      }
      if outcome.None? {
        outcome := Some(VerdictOf(answer));
        if answer.Ok? && answer.value.allowed && !query.mutation {
          cache.Put(key, answer.value.reason, answer.value.obligations, now, answer.value.ttl);
        }
      }
      var ttl := if outcome.value.allowed then outcome.value.ttl else 0;
      var expiresAt := Min(policy.expiresAt, now + Max(1, ttl));
      var decision := Decision(who.organizationId, who.subjectId, query, policy.digest, outcome.value.allowed,
                               outcome.value.reason, outcome.value.obligations, now, expiresAt);
      var recorded := store.Record(AuditRecord(decision, cacheHit), storeFails);
      return if recorded then Decided(decision) else AuditCommitFailed;
    }

    /** One call, on the service or on its policy manager, is one step of the run. */
    method Perform(e: Event) returns (reply: Reply)
      requires Valid()
      modifies policies`states, cache, store
      ensures Valid()
      ensures (View(), reply) == Step(old(View()), e, cache.bounds)
    {
      hide DecideStep;
      match e
      case Activate(artifact, now) =>
        var result := policies.Activate(artifact, now);
        reply := if result.Ok? then Trusted(result.value) else PolicyRefused(result.code);
      case Revoke(o, digest) =>
        policies.Revoke(o, digest);
        reply := Done;
      case Rollback(o, now) =>
        var result := policies.Rollback(o, now);
        reply := if result.Ok? then Trusted(result.value) else PolicyRefused(result.code);
      case Probe(o, now) =>
        var result := policies.Active(o, now);
        reply := if result.Ok? then Trusted(result.value) else PolicyRefused(result.code);
      case Decide(who, query, now, answer, storeFails) =>
        reply := Decide(who, query, now, answer, storeFails);
    }
  }
}
