/** The exact answer of every decision and every change of trust of a run, told from the policies and
    the cached items that the run has reached. */
module DecisionAnswers {
  import opened Results
  import opened TrustStates
  import opened DecisionCaches
  import opened PolicyManagers
  import opened DecisionServices
  import opened DecisionTheorems

  /* ---------- The policies of a tenant ---------- */

  function ActiveOf(w: World, o: string): Option<Policy> {
    if o in w.policies then w.policies[o].active else None
  }

  function LastOf(w: World, o: string): Option<Policy> {
    if o in w.policies then w.policies[o].lastKnownGood else None
  }

  function RevokedIn(w: World, o: string): set<string> {
    if o in w.policies then w.policies[o].revoked else {}
  }

  /** Somewhere in the run the tenant revoked the digest. */
  ghost predicate WasRevoked(es: seq<Event>, o: string, digest: string) {
    exists i | 0 <= i < |es| :: es[i] == Revoke(o, digest)
  }

  /** Revoked is what was revoked, and nothing is ever forgotten. */
  lemma {:induction false} RevokedExactly(es: seq<Event>, o: string, digest: string, bounds: Bounds)
    requires BoundsOk(bounds)
    ensures digest in RevokedIn(Run(es, bounds), o) <==> WasRevoked(es, o, digest)
  {
    if es != [] {
      var init, e := es[..|es| - 1], es[|es| - 1];
      assert es == init + [e];
      RevokedExactly(init, o, digest, bounds);
      RevokedByStep(Run(init, bounds), e, o, digest, bounds);
      RevokedAppended(init, e, o, digest);
    }
  }

  lemma RevokedByStep(w: World, e: Event, o: string, digest: string, bounds: Bounds)
    requires BoundsOk(bounds)
    ensures digest in RevokedIn(Step(w, e, bounds).0, o) <==> digest in RevokedIn(w, o) || e == Revoke(o, digest)
  {
    hide DecideStep;
    if e.Decide? {
      QuietDecision(w, e, bounds);
    }
  }

  lemma QuietDecision(w: World, e: Event, bounds: Bounds)
    requires BoundsOk(bounds) && e.Decide?
    ensures DecideStep(w, e, bounds).0.policies == w.policies
  {
  }

  lemma RevokedAppended(init: seq<Event>, e: Event, o: string, digest: string)
    ensures WasRevoked(init + [e], o, digest) <==> WasRevoked(init, o, digest) || e == Revoke(o, digest)
  {
    var es := init + [e];
    if i :| 0 <= i < |init| && init[i] == Revoke(o, digest) {
      assert es[i] == init[i];
    }
    assert es[|init|] == e;
  }

  /** The tenant's active policy is in force at `now`. */
  ghost predicate Serves(w: World, o: string, now: int) {
    ActiveOf(w, o).Some? && ActiveOf(w, o).value.effectiveAt <= now < ActiveOf(w, o).value.expiresAt
  }

  /** What a caller is told, and what becomes of the cache, when no policy is in force. */
  ghost predicate RefusesPolicy(w: World, o: string, now: int, w': World, reply: Reply) {
    if ActiveOf(w, o).None? then w' == w && reply == PolicyRefused(Unavailable)
    else if now < ActiveOf(w, o).value.effectiveAt then w' == w && reply == PolicyRefused(NotYetEffective)
    else w' == w.(items := []) && reply == PolicyRefused(TrustDenial.Expired)
  }

  lemma ActiveIsExact(w: World, o: string, now: int, bounds: Bounds)
    requires Sound(w, bounds)
    ensures ActiveIn(StateOf(w.policies, o), now) ==
            if ActiveOf(w, o).None? then Err(Unavailable)
            else if now < ActiveOf(w, o).value.effectiveAt then Err(NotYetEffective)
            else if ActiveOf(w, o).value.expiresAt <= now then Err(TrustDenial.Expired)
            else Ok(ActiveOf(w, o).value)
  {
    assert o in w.policies ==> CoherentFor(o, w.policies[o]);
  }

  /* ---------- Decisions ---------- */

  /** The item is the tenant's and subject's, for this query under this policy, and still lasts. */
  predicate Serving(x: Item, who: Subject, query: Query, policy: Policy, now: int) {
    && x.key == CacheKey(who.organizationId, who.subjectId, query, policy.digest)
    && !query.mutation
    && now < x.outcome.expiresAt
  }

  ghost predicate IsCached(w: World, who: Subject, query: Query, policy: Policy, now: int) {
    exists x | x in w.items :: Serving(x, who, query, policy, now)
  }

  /** The decision is about this query, and made now under this policy. */
  predicate IsAbout(d: Decision, who: Subject, query: Query, policy: Policy, now: int) {
    && d.organizationId == who.organizationId && d.subjectId == who.subjectId
    && d.query == query && d.policyDigest == policy.digest && d.evaluatedAt == now
  }

  function Earlier(a: int, b: int): int {
    if a <= b then a else b
  }

  /** The decision repeats what item `x` holds, until the item or the policy ends. */
  predicate Repeats(d: Decision, x: Item, policy: Policy) {
    d.allowed && d.reason == "ALLOW" && d.obligations == x.outcome.obligations
    && d.expiresAt == Earlier(policy.expiresAt, x.outcome.expiresAt)
  }

  /** The decision is what the oracle answered: an allow for as long as the oracle said, anything else --
      its denials, and each way in which it can fail -- for one second. */
  predicate Reports(d: Decision, answer: Answer, policy: Policy, now: int) {
    match answer
    case Ok(v) =>
      && d.allowed == v.allowed && d.reason == v.reason && d.obligations == v.obligations
      && d.expiresAt == Earlier(policy.expiresAt, now + if v.allowed && v.ttl > 1 then v.ttl else 1)
    case Err(failure) =>
      && !d.allowed && d.obligations == [] && d.expiresAt == Earlier(policy.expiresAt, now + 1)
      && (failure == NonSuccess ==> d.reason == "OPA_NON_SUCCESS")
      && (failure == ResponseInvalid ==> d.reason == "OPA_RESPONSE_INVALID")
      && (failure == OracleUnavailable ==> d.reason == "OPA_UNAVAILABLE")
  }

  /** The answer of a decision. */
  ghost predicate AnswersDecision(w: World, e: Event, w': World, reply: Reply)
    requires e.Decide?
  {
    if !Serves(w, e.who.organizationId, e.now) then RefusesPolicy(w, e.who.organizationId, e.now, w', reply)
    else
      var policy := ActiveOf(w, e.who.organizationId).value;
      && w'.policies == w.policies
      && if e.storeFails then reply == AuditCommitFailed && w'.records == w.records
         else
           && reply.Decided?
           && IsAbout(reply.decision, e.who, e.query, policy, e.now)
           && (forall x | x in w.items && Serving(x, e.who, e.query, policy, e.now) ::
                 Repeats(reply.decision, x, policy))
           && (!IsCached(w, e.who, e.query, policy, e.now) ==> Reports(reply.decision, e.answer, policy, e.now))
           && w'.records ==
              w.records + [AuditRecord(reply.decision, IsCached(w, e.who, e.query, policy, e.now))]
  }

  lemma HitIsExact(w: World, who: Subject, query: Query, policy: Policy, now: int)
    requires Distinct(w.items)
    ensures Hit(w.items, KeyOf(who, query, policy), now).Some? <==> IsCached(w, who, query, policy, now)
    ensures forall x | x in w.items && Serving(x, who, query, policy, now) ::
              Hit(w.items, KeyOf(who, query, policy), now) == Some(x.outcome)
  {
    hide Find, Distinct;
    var key := KeyOf(who, query, policy);
    forall x | x in w.items && Serving(x, who, query, policy, now)
      ensures Hit(w.items, key, now) == Some(x.outcome)
    {
      FindDistinct(w.items, x);
    }
    if Hit(w.items, key, now).Some? {
      assert Serving(Item(key, Hit(w.items, key, now).value), who, query, policy, now);
    }
  }

  lemma DecisionIsExact(w: World, e: Event, policy: Policy, bounds: Bounds)
    requires Sound(w, bounds) && e.Decide? && policy.expiresAt > e.now
    ensures var d := DecisionIn(w, e, policy);
            && IsAbout(d, e.who, e.query, policy, e.now)
            && (forall x | x in w.items && Serving(x, e.who, e.query, policy, e.now) :: Repeats(d, x, policy))
            && (!IsCached(w, e.who, e.query, policy, e.now) ==> Reports(d, e.answer, policy, e.now))
  {
    hide Hit, IsCached, Coherent, Distinct;
    HitIsExact(w, e.who, e.query, policy, e.now);
    assert forall x | x in w.items :: x.outcome.reason == "ALLOW";
  }

  lemma DecideIsExact(w: World, e: Event, bounds: Bounds)
    requires BoundsOk(bounds) && Sound(w, bounds) && e.Decide?
    ensures var (w', reply) := DecideStep(w, e, bounds); AnswersDecision(w, e, w', reply)
  {
    hide Sound, DecisionIn, ItemsAfter, Hit, IsCached, Reports, Repeats, Serving, ActiveIn, StateOf, IsAbout;
    ActiveIsExact(w, e.who.organizationId, e.now, bounds);
    if Serves(w, e.who.organizationId, e.now) {
      var policy := ActiveOf(w, e.who.organizationId).value;
      DecisionIsExact(w, e, policy, bounds);
      SoundIsDistinct(w, bounds);
      HitIsExact(w, e.who, e.query, policy, e.now);
    }
  }

  lemma SoundIsDistinct(w: World, bounds: Bounds)
    requires Sound(w, bounds)
    ensures Distinct(w.items)
  {
  }

  /** For every run and every decision, the one answer it gives. Without an item in the cache that
      serves it, a decision under a policy in force is allowed exactly when the oracle answered, and
      answered yes: every denial and every failure of the oracle is refused. */
  lemma DecisionsAreExact(es: seq<Event>, who: Subject, query: Query, now: int, answer: Answer, storeFails: bool,
                          bounds: Bounds)
    requires BoundsOk(bounds)
    ensures var w, e := Run(es, bounds), Decide(who, query, now, answer, storeFails);
            var (w', reply) := Step(w, e, bounds);
            && AnswersDecision(w, e, w', reply)
            && (reply.Decided? && !IsCached(w, who, query, ActiveOf(w, who.organizationId).value, now) ==>
                  (reply.decision.allowed <==> answer.Ok? && answer.value.allowed))
  {
    hide Sound, DecideStep, IsCached, ActiveOf, Serves, RefusesPolicy, IsAbout;
    RunKeeps(es, bounds);
    DecideIsExact(Run(es, bounds), Decide(who, query, now, answer, storeFails), bounds);
    RefusalIsNoDecision(Run(es, bounds), Decide(who, query, now, answer, storeFails), bounds);
  }

  lemma RefusalIsNoDecision(w: World, e: Event, bounds: Bounds)
    requires BoundsOk(bounds) && e.Decide?
    requires AnswersDecision(w, e, DecideStep(w, e, bounds).0, DecideStep(w, e, bounds).1)
    ensures DecideStep(w, e, bounds).1.Decided? ==> Serves(w, e.who.organizationId, e.now)
    ensures Serves(w, e.who.organizationId, e.now) ==> ActiveOf(w, e.who.organizationId).Some?
  {
  }

  /** The event that decided something is the event the record tells of, and its oracle allowed it. */
  ghost predicate Granted(e: Event, d: Decision) {
    && e.Decide?
    && d.organizationId == e.who.organizationId && d.subjectId == e.who.subjectId
    && d.query == e.query && d.evaluatedAt == e.now
    && e.answer.Ok? && e.answer.value.allowed && d.obligations == e.answer.value.obligations
  }

  /** Every allow on record that did not come from the cache was given by the oracle, to the very call
      that the record tells of. */
  lemma {:induction false} FreshAllowsAreTheOracles(es: seq<Event>, n: nat, bounds: Bounds) returns (i: nat)
    requires BoundsOk(bounds) && n < |Run(es, bounds).records|
    requires Run(es, bounds).records[n].decision.allowed && !Run(es, bounds).records[n].cacheHit
    ensures i < |es| && Granted(es[i], Run(es, bounds).records[n].decision)
  {
    hide Step, Sound, Granted;
    var init, e := es[..|es| - 1], es[|es| - 1];
    var w := Run(init, bounds);
    RunKeeps(init, bounds);
    RecordsOfStep(w, e, bounds);
    if n < |w.records| {
      i := FreshAllowsAreTheOracles(init, n, bounds);
    } else {
      i := |init|;
      NewRecordIsTheOracles(w, e, n, bounds);
    }
  }

  lemma NewRecordIsTheOracles(w: World, e: Event, n: nat, bounds: Bounds)
    requires BoundsOk(bounds) && Sound(w, bounds)
    requires |w.records| <= n < |Step(w, e, bounds).0.records|
    requires var r := Step(w, e, bounds).0.records[n]; r.decision.allowed && !r.cacheHit
    ensures Granted(e, Step(w, e, bounds).0.records[n].decision)
  {
    hide Sound, DecideStep, IsCached, ActiveOf, Serves, Serving;
    if e.Decide? {
      DecideIsExact(w, e, bounds);
    }
  }

  /** What a decision leaves in the cache. An allow of the oracle for a query that does not mutate is
      kept exactly when its lifetime is at least a second and at most the cache's maximum, and then
      for exactly that lifetime; nothing else becomes available from the cache. */
  lemma AllowIsCachedExactly(es: seq<Event>, who: Subject, query: Query, now: int, answer: Answer, storeFails: bool,
                             bounds: Bounds)
    requires BoundsOk(bounds) && Serves(Run(es, bounds), who.organizationId, now)
    requires !IsCached(Run(es, bounds), who, query, ActiveOf(Run(es, bounds), who.organizationId).value, now)
    ensures var w := Run(es, bounds);
            var policy := ActiveOf(w, who.organizationId).value;
            var w' := Step(w, Decide(who, query, now, answer, storeFails), bounds).0;
            var key := CacheKey(who.organizationId, who.subjectId, query, policy.digest);
            if !query.mutation && answer.Ok? && answer.value.allowed && 1 <= answer.value.ttl <= bounds.ttl
            then
              && w'.items != []
              && w'.items[|w'.items| - 1] ==
                 Item(key, Outcome("ALLOW", answer.value.obligations, now + answer.value.ttl))
            else !IsCached(w', who, query, policy, now)
  {
    hide Sound, ActiveIn, Lookup, AfterGet, Newest, Without, Run;
    var w, e := Run(es, bounds), Decide(who, query, now, answer, storeFails);
    RunKeeps(es, bounds);
    SoundIsDistinct(w, bounds);
    ActiveIsExact(w, who.organizationId, now, bounds);
    var policy := ActiveOf(w, who.organizationId).value;
    var key := KeyOf(who, query, policy);
    HitIsExact(w, who, query, policy, now);
    if !query.mutation {
      GetKeeps(w.items, key, now);
      if answer.Ok? && Accepted(answer.value.reason, answer.value.ttl, bounds) {
        NewestKeepsLast(Without(AfterGet(w.items, key, now), key),
                        Item(key, Outcome(answer.value.reason, answer.value.obligations, now + answer.value.ttl)),
                        bounds.entries);
      }
    }
  }

  lemma NewestKeepsLast(items: seq<Item>, x: Item, entries: nat)
    requires 1 <= entries
    ensures var r := Newest(items + [x], entries); r != [] && r[|r| - 1] == x
  {
  }

  /* ---------- Changes of trust ---------- */

  /** The tenant's trust state is now this one, and the cache is empty. */
  ghost predicate TrustsNow(w: World, w': World, o: string, active: Option<Policy>, last: Option<Policy>,
                            revoked: set<string>)
  {
    && w'.policies == w.policies[o := TrustState(active, last, revoked)]
    && w'.items == []
    && w'.records == w.records
  }

  ghost predicate Refuses(w: World, w': World, reply: Reply, code: TrustDenial) {
    w' == w && reply == PolicyRefused(code)
  }

  /** The answer of an activation of a verified policy. */
  ghost predicate AnswersActivation(es: seq<Event>, w: World, artifact: Policy, now: int, w': World, reply: Reply) {
    var o := artifact.organizationId;
    if now < artifact.effectiveAt || artifact.expiresAt <= artifact.effectiveAt
    then Refuses(w, w', reply, NotYetEffective)
    else if artifact.expiresAt <= now then Refuses(w, w', reply, TrustDenial.Expired)
    else if WasRevoked(es, o, artifact.digest) then Refuses(w, w', reply, Revoked)
    else if ActiveOf(w, o).None? then
      if artifact.content == 1 && artifact.supersedes == None
      then reply == Trusted(artifact) && TrustsNow(w, w', o, Some(artifact), None, RevokedIn(w, o))
      else Refuses(w, w', reply, VersionInvalid)
    else
      var previous := ActiveOf(w, o).value;
      if artifact.content != previous.content + 1 then Refuses(w, w', reply, VersionInvalid)
      else if artifact.supersedes != Some(previous.digest) then Refuses(w, w', reply, PredecessorMismatch)
      else reply == Trusted(artifact) && TrustsNow(w, w', o, Some(artifact), Some(previous), RevokedIn(w, o))
  }

  /** For every run and every activation, the one answer it gives: a policy in force that was never
      revoked is activated exactly as the first version of its tenant, or as the direct successor of
      the active one, which is then the last known good. */
  lemma ActivationIsExact(es: seq<Event>, artifact: Policy, now: int, bounds: Bounds)
    requires BoundsOk(bounds)
    ensures var w := Run(es, bounds);
            var (w', reply) := Step(w, Activate(artifact, now), bounds);
            AnswersActivation(es, w, artifact, now, w', reply)
  {
    hide Run, WasRevoked;
    RevokedExactly(es, artifact.organizationId, artifact.digest, bounds);
  }

  function Unless(policy: Option<Policy>, digest: string): Option<Policy> {
    match policy
    case None => None
    case Some(p) => if p.digest == digest then None else policy
  }

  /** A revocation always goes through: the digest is out of both places at once, and is remembered. */
  lemma RevocationIsExact(es: seq<Event>, o: string, digest: string, bounds: Bounds)
    requires BoundsOk(bounds)
    ensures var w := Run(es, bounds);
            var (w', reply) := Step(w, Revoke(o, digest), bounds);
            && reply == Done
            && TrustsNow(w, w', o, Unless(ActiveOf(w, o), digest), Unless(LastOf(w, o), digest),
                         RevokedIn(w, o) + {digest})
  {
    hide Run;
  }

  /** A rollback restores the last known good policy exactly when there is one and it is in force; it
      can be done once. */
  lemma RollbackIsExact(es: seq<Event>, o: string, now: int, bounds: Bounds)
    requires BoundsOk(bounds)
    ensures var w := Run(es, bounds);
            var (w', reply) := Step(w, Rollback(o, now), bounds);
            var last := LastOf(w, o);
            if last.Some? && last.value.effectiveAt <= now < last.value.expiresAt
            then reply == Trusted(last.value) && TrustsNow(w, w', o, last, None, RevokedIn(w, o))
            else Refuses(w, w', reply, LastKnownGoodUnavailable)
  {
    hide Run;
    RunKeeps(es, bounds);
    assert Coherent(Run(es, bounds).policies);
  }

  /** The readiness probe shows the active policy exactly while it is in force. */
  lemma ProbeIsExact(es: seq<Event>, o: string, now: int, bounds: Bounds)
    requires BoundsOk(bounds)
    ensures var w := Run(es, bounds);
            var (w', reply) := Step(w, Probe(o, now), bounds);
            if Serves(w, o, now) then w' == w && reply == Trusted(ActiveOf(w, o).value)
            else RefusesPolicy(w, o, now, w', reply)
  {
    hide Run, Sound;
    RunKeeps(es, bounds);
    ActiveIsExact(Run(es, bounds), o, now, bounds);
  }
}
