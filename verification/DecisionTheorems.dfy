/** What runs of decisions, activations, revocations and rollbacks guarantee. */
module DecisionTheorems {
  import opened Results
  import opened TrustStates
  import opened DecisionCaches
  import opened PolicyManagers
  import opened DecisionServices

  /* ---------- The invariant ---------- */

  /** Only allows for queries that do not mutate are cached, under the policy that is active now. */
  ghost predicate Pinned(w: World) {
    forall x | x in w.items ::
      var active := StateOf(w.policies, x.key.organizationId).active;
      && active.Some? && active.value.digest == x.key.policyDigest
      && !x.key.query.mutation
      && x.outcome.reason == "ALLOW"
  }

  ghost predicate Sound(w: World, bounds: Bounds) {
    && Coherent(w.policies)
    && Distinct(w.items)
    && |w.items| <= bounds.entries
    && Pinned(w)
  }

  lemma {:induction false} WithoutKeeps(items: seq<Item>, key: CacheKey)
    ensures |Without(items, key)| <= |items|
    ensures forall x :: x in Without(items, key) <==> x in items && x.key != key
    ensures Distinct(items) ==> Distinct(Without(items, key))
  {
    if items != [] {
      WithoutKeeps(items[1..], key);
    }
  }

  lemma GetKeeps(items: seq<Item>, key: CacheKey, now: int)
    requires Distinct(items)
    ensures Distinct(AfterGet(items, key, now)) && |AfterGet(items, key, now)| <= |items|
    ensures forall x | x in AfterGet(items, key, now) :: x in items
  {
    WithoutKeeps(items, key);
    if Find(items, key).Some? {
      HasOne(items, key);
    }
  }

  lemma {:induction false} HasOne(items: seq<Item>, key: CacheKey)
    requires Find(items, key).Some?
    ensures |Without(items, key)| < |items|
  {
    if items[0].key == key {
      WithoutKeeps(items[1..], key);
    } else {
      HasOne(items[1..], key);
    }
  }

  lemma PutKeeps(items: seq<Item>, key: CacheKey, v: OracleVerdict, now: int, bounds: Bounds)
    requires BoundsOk(bounds) && Distinct(items) && |items| <= bounds.entries
    ensures var items' := AfterPut(items, key, v.reason, v.obligations, now, v.ttl, bounds);
            && Distinct(items') && |items'| <= bounds.entries
            && forall x | x in items' ::
                 x in items ||
                 (v.reason == "ALLOW" && 1 <= v.ttl && x == Item(key, Outcome(v.reason, v.obligations, now + v.ttl)))
  {
    WithoutKeeps(items, key);
    var pre := Without(items, key) + [Item(key, Outcome(v.reason, v.obligations, now + v.ttl))];
    assert Distinct(pre);
  }

  /** What one decision leaves in the cache. */
  lemma DecisionKeepsItems(items: seq<Item>, key: CacheKey, answer: Answer, now: int, bounds: Bounds)
    requires BoundsOk(bounds) && Distinct(items) && |items| <= bounds.entries
    ensures var items' := ItemsAfter(items, key, answer, now, bounds);
            && Distinct(items') && |items'| <= bounds.entries
            && forall x | x in items' ::
                 x in items ||
                 (&& !key.query.mutation && Lookup(items, key, now).None?
                  && answer.Ok? && answer.value.allowed && 1 <= answer.value.ttl
                  && x == Item(key, Outcome("ALLOW", answer.value.obligations, now + answer.value.ttl)))
  {
    hide Distinct, AfterGet, AfterPut;
    GetKeeps(items, key, now);
    if answer.Ok? {
      PutKeeps(AfterGet(items, key, now), key, answer.value, now, bounds);
    }
  }

  /** The event that fires the manager's callback. */
  predicate ChangesTrust(w: World, e: Event) {
    match e
    case Activate(artifact, now) =>
      && InForce(artifact, now, NotYetEffective).Ok?
      && AfterActivate(StateOf(w.policies, artifact.organizationId), artifact).Ok?
    case Revoke(_, _) => true
    case Rollback(o, now) => AfterRollback(StateOf(w.policies, o), now).Ok?
    case Probe(o, now) => ActiveIn(StateOf(w.policies, o), now) == Err(Expired)
    case Decide(who, _, now, _, _) => ActiveIn(StateOf(w.policies, who.organizationId), now) == Err(Expired)
  }

  lemma TrustChangeClears(w: World, e: Event, bounds: Bounds)
    requires BoundsOk(bounds) && ChangesTrust(w, e)
    ensures Step(w, e, bounds).0.items == []
  {
  }

  lemma QuietStep(w: World, e: Event, bounds: Bounds)
    requires BoundsOk(bounds) && !ChangesTrust(w, e)
    ensures Step(w, e, bounds).0.policies == w.policies
    ensures !e.Decide? ==> Step(w, e, bounds).0.items == w.items
  {
  }

  lemma PoliciesStayCoherent(w: World, e: Event, bounds: Bounds)
    requires BoundsOk(bounds) && Coherent(w.policies)
    ensures Coherent(Step(w, e, bounds).0.policies)
  {
    if !ChangesTrust(w, e) {
      QuietStep(w, e, bounds);
    } else if e.Activate? {
      assert CoherentFor(e.artifact.organizationId, StateOf(w.policies, e.artifact.organizationId));
    } else if !e.Decide? {
      assert CoherentFor(e.organizationId, StateOf(w.policies, e.organizationId));
    }
  }

  lemma StepKeeps(w: World, e: Event, bounds: Bounds)
    requires BoundsOk(bounds) && Sound(w, bounds)
    ensures Sound(Step(w, e, bounds).0, bounds)
  {
    hide Coherent, Distinct;
    PoliciesStayCoherent(w, e, bounds);
    if ChangesTrust(w, e) {
      TrustChangeClears(w, e, bounds);
      assert Distinct([]) by { NothingIsDistinct(); }
    } else {
      QuietStep(w, e, bounds);
      if e.Decide? && ActiveIn(StateOf(w.policies, e.who.organizationId), e.now).Ok? {
        var policy := ActiveIn(StateOf(w.policies, e.who.organizationId), e.now).value;
        DecisionKeepsItems(w.items, KeyOf(e.who, e.query, policy), e.answer, e.now, bounds);
      }
    }
  }

  lemma NothingIsDistinct()
    ensures Distinct([])
  {
  }

  lemma {:induction false} RunKeeps(es: seq<Event>, bounds: Bounds)
    requires BoundsOk(bounds)
    ensures Sound(Run(es, bounds), bounds)
  {
    if es != [] {
      hide Sound, Step;
      RunKeeps(es[..|es| - 1], bounds);
      StepKeeps(Run(es[..|es| - 1], bounds), es[|es| - 1], bounds);
    }
  }

  /* ---------- Trust ---------- */

  /** In every run nothing active or last known good is revoked, an active policy names the last
      known good one as its predecessor with the version before, and every cached key carries the
      digest that is active for its tenant. */
  lemma TrustIsCoherent(es: seq<Event>, bounds: Bounds)
    requires BoundsOk(bounds)
    ensures Coherent(Run(es, bounds).policies) && Pinned(Run(es, bounds))
  {
    RunKeeps(es, bounds);
  }

  lemma RevokedGrows(w: World, e: Event, bounds: Bounds, o: string)
    requires BoundsOk(bounds)
    ensures StateOf(w.policies, o).revoked <= StateOf(Step(w, e, bounds).0.policies, o).revoked
  {
  }

  lemma {:induction false} StaysRevoked(es: seq<Event>, i: nat, bounds: Bounds)
    requires BoundsOk(bounds) && i < |es| && es[i].Revoke?
    ensures es[i].digest in StateOf(Run(es, bounds).policies, es[i].organizationId).revoked
  {
    var init, last := es[..|es| - 1], es[|es| - 1];
    if i < |init| {
      StaysRevoked(init, i, bounds);
      RevokedGrows(Run(init, bounds), last, bounds, es[i].organizationId);
    }
  }

  /** After a revocation the digest is never active again, whatever is activated or rolled back. */
  lemma RevokedIsNeverActive(es: seq<Event>, i: nat, bounds: Bounds)
    requires BoundsOk(bounds) && i < |es| && es[i].Revoke?
    ensures var state := StateOf(Run(es, bounds).policies, es[i].organizationId);
            && (state.active.Some? ==> state.active.value.digest != es[i].digest)
            && (state.lastKnownGood.Some? ==> state.lastKnownGood.value.digest != es[i].digest)
  {
    StaysRevoked(es, i, bounds);
    RunKeeps(es, bounds);
    assert Coherent(Run(es, bounds).policies);
  }

  /** So no later decision of that tenant, cached or not, is made under it. */
  lemma NoDecisionUnderRevoked(es: seq<Event>, i: nat, e: Event, bounds: Bounds)
    requires BoundsOk(bounds) && i < |es| && es[i].Revoke?
    requires e.Decide? && e.who.organizationId == es[i].organizationId
    ensures var reply := Step(Run(es, bounds), e, bounds).1;
            reply.Decided? ==> reply.decision.policyDigest != es[i].digest
  {
    RevokedIsNeverActive(es, i, bounds);
  }

  /* ---------- Cached allows ---------- */

  /** Event `i` of the run asked the oracle this very query under the policy that is still active,
      and was told to allow it until `outcome.expiresAt`; nothing has changed trust since. */
  ghost predicate Justifies(es: seq<Event>, i: nat, key: CacheKey, outcome: Outcome, bounds: Bounds)
    requires BoundsOk(bounds)
  {
    && i < |es|
    && es[i].Decide?
    && var w := Run(es[..i], bounds);
       var active := ActiveIn(StateOf(w.policies, es[i].who.organizationId), es[i].now);
       && active.Ok?
       && key == KeyOf(es[i].who, es[i].query, active.value)
       && !es[i].query.mutation
       && Lookup(w.items, key, es[i].now).None?
       && es[i].answer.Ok?
       && es[i].answer.value.allowed
       && 1 <= es[i].answer.value.ttl <= 30
       && outcome == Outcome("ALLOW", es[i].answer.value.obligations, es[i].now + es[i].answer.value.ttl)
       && forall j | i <= j < |es| :: !ChangesTrust(Run(es[..j], bounds), es[j])
  }

  lemma JustifiesLonger(init: seq<Event>, e: Event, i: nat, key: CacheKey, outcome: Outcome, bounds: Bounds)
    requires BoundsOk(bounds) && Justifies(init, i, key, outcome, bounds) && !ChangesTrust(Run(init, bounds), e)
    ensures Justifies(init + [e], i, key, outcome, bounds)
  {
    hide Run, ActiveIn, ChangesTrust, Lookup;
    var es := init + [e];
    assert es[..i] == init[..i];
    forall j | i <= j < |es| ensures !ChangesTrust(Run(es[..j], bounds), es[j]) {
      assert es[..j] == if j < |init| then init[..j] else init;
    }
  }

  lemma OracleJustifies(init: seq<Event>, e: Event, policy: Policy, bounds: Bounds)
    requires BoundsOk(bounds) && e.Decide? && !e.query.mutation
    requires ActiveIn(StateOf(Run(init, bounds).policies, e.who.organizationId), e.now) == Ok(policy)
    requires Lookup(Run(init, bounds).items, KeyOf(e.who, e.query, policy), e.now).None?
    requires e.answer.Ok? && e.answer.value.allowed && 1 <= e.answer.value.ttl
    ensures Justifies(init + [e], |init|, KeyOf(e.who, e.query, policy),
                      Outcome("ALLOW", e.answer.value.obligations, e.now + e.answer.value.ttl), bounds)
  {
    hide Run, ActiveIn, Lookup;
    assert (init + [e])[..|init|] == init;
  }

  lemma {:induction false} CachedIsJustified(es: seq<Event>, x: Item, bounds: Bounds) returns (i: nat)
    requires BoundsOk(bounds) && x in Run(es, bounds).items
    ensures Justifies(es, i, x.key, x.outcome, bounds)
  {
    hide Justifies, Step, ItemsAfter;
    var init, e := es[..|es| - 1], es[|es| - 1];
    assert es == init + [e];
    var w := Run(init, bounds);
    RunKeeps(init, bounds);
    assert !ChangesTrust(w, e) by {
      if ChangesTrust(w, e) {
        TrustChangeClears(w, e, bounds);
      }
    }
    QuietStep(w, e, bounds);
    StepItems(w, e, bounds);
    if x in w.items {
      i := CachedIsJustified(init, x, bounds);
      JustifiesLonger(init, e, i, x.key, x.outcome, bounds);
    } else {
      var policy := ActiveIn(StateOf(w.policies, e.who.organizationId), e.now).value;
      DecisionKeepsItems(w.items, KeyOf(e.who, e.query, policy), e.answer, e.now, bounds);
      OracleJustifies(init, e, policy, bounds);
      i := |init|;
    }
  }

  lemma StepItems(w: World, e: Event, bounds: Bounds)
    requires BoundsOk(bounds) && !ChangesTrust(w, e)
    ensures var items' := Step(w, e, bounds).0.items;
            if e.Decide? && ActiveIn(StateOf(w.policies, e.who.organizationId), e.now).Ok?
            then items' == ItemsAfter(w.items, KeyOf(e.who, e.query,
                                                     ActiveIn(StateOf(w.policies, e.who.organizationId), e.now).value),
                                      e.answer, e.now, bounds)
            else items' == w.items
  {
  }

  /** Without a change of trust the policies stay what they were. */
  lemma {:induction false} QuietRun(es: seq<Event>, i: nat, bounds: Bounds)
    requires BoundsOk(bounds) && i <= |es|
    requires forall j | i <= j < |es| :: !ChangesTrust(Run(es[..j], bounds), es[j])
    ensures Run(es, bounds).policies == Run(es[..i], bounds).policies
  {
    hide Step, ChangesTrust;
    if i == |es| {
      assert es[..i] == es;
    } else {
      var init, last := es[..|es| - 1], es[|es| - 1];
      forall j | i <= j < |init| ensures !ChangesTrust(Run(init[..j], bounds), init[j]) {
        assert init[..j] == es[..j];
      }
      QuietRun(init, i, bounds);
      assert init[..i] == es[..i];
      QuietStep(Run(init, bounds), last, bounds);
    }
  }

  /** Every allow served from the cache was given by the oracle earlier in the run to the same
      tenant and subject for the same query under the same policy, with no change of trust since.
      It carries the same obligations and ends at the same moment, so a hit never lengthens a
      grant. */
  lemma CachedAllowsAreJustified(es: seq<Event>, e: Event, policy: Policy, bounds: Bounds) returns (i: nat)
    requires BoundsOk(bounds) && e.Decide?
    requires ActiveIn(StateOf(Run(es, bounds).policies, e.who.organizationId), e.now) == Ok(policy)
    requires Hit(Run(es, bounds).items, KeyOf(e.who, e.query, policy), e.now).Some?
    ensures Justifies(es, i, KeyOf(e.who, e.query, policy),
                      Hit(Run(es, bounds).items, KeyOf(e.who, e.query, policy), e.now).value, bounds)
    ensures es[i].who == e.who && es[i].query == e.query
    ensures e.now < es[i].now + es[i].answer.value.ttl
    ensures var decision := DecisionIn(Run(es, bounds), e, policy);
            var granted := DecisionIn(Run(es[..i], bounds), es[i], policy);
            && decision.allowed && granted.allowed
            && decision.obligations == granted.obligations == es[i].answer.value.obligations
            && decision.expiresAt == granted.expiresAt ==
               DecisionServices.Min(policy.expiresAt, es[i].now + es[i].answer.value.ttl)
            && decision.evaluatedAt < decision.expiresAt
  {
    hide Run, Step;
    var key := KeyOf(e.who, e.query, policy);
    var outcome := Hit(Run(es, bounds).items, key, e.now).value;
    i := CachedIsJustified(es, Item(key, outcome), bounds);
    QuietRun(es, i, bounds);
  }

  /* ---------- Records ---------- */

  /** The decisions that were handed out. */
  function Delivered(es: seq<Event>, bounds: Bounds): seq<Decision>
    requires BoundsOk(bounds)
  {
    if es == [] then []
    else
      var reply := Step(Run(es[..|es| - 1], bounds), es[|es| - 1], bounds).1;
      var earlier := Delivered(es[..|es| - 1], bounds);
      if reply.Decided? then earlier + [reply.decision] else earlier
  }

  /** What holds of every decision on record. */
  ghost predicate Proper(r: AuditRecord) {
    && r.decision.evaluatedAt < r.decision.expiresAt
    && (r.cacheHit ==> r.decision.allowed && !r.decision.query.mutation)
    && (r.decision.allowed <==> r.decision.reason == "ALLOW")
  }

  lemma DecisionIsProper(w: World, e: Event, policy: Policy, bounds: Bounds)
    requires BoundsOk(bounds) && Sound(w, bounds) && e.Decide?
    requires ActiveIn(StateOf(w.policies, e.who.organizationId), e.now) == Ok(policy)
    ensures Proper(AuditRecord(DecisionIn(w, e, policy), Hit(w.items, KeyOf(e.who, e.query, policy), e.now).Some?))
  {
    var hit := Hit(w.items, KeyOf(e.who, e.query, policy), e.now);
    if hit.Some? {
      assert Item(KeyOf(e.who, e.query, policy), hit.value) in w.items;
    }
  }

  /** A decision is handed out exactly when it has been recorded, in the same order; every one
      expires after it was made, and none that mutates was served from the cache. */
  lemma {:induction false} DeliveredIsRecorded(es: seq<Event>, bounds: Bounds)
    requires BoundsOk(bounds)
    ensures var records := Run(es, bounds).records;
            && |records| == |Delivered(es, bounds)|
            && forall i | 0 <= i < |records| :: Proper(records[i]) && records[i].decision == Delivered(es, bounds)[i]
  {
    if es != [] {
      var init, e := es[..|es| - 1], es[|es| - 1];
      DeliveredIsRecorded(init, bounds);
      RunKeeps(init, bounds);
      var w := Run(init, bounds);
      if e.Decide? && ActiveIn(StateOf(w.policies, e.who.organizationId), e.now).Ok? {
        DecisionIsProper(w, e, ActiveIn(StateOf(w.policies, e.who.organizationId), e.now).value, bounds);
      }
    }
  }

  /* ---------- A grant that was never recorded ---------- */

  lemma RecordsOfStep(w: World, e: Event, bounds: Bounds)
    requires BoundsOk(bounds)
    ensures w.records <= Step(w, e, bounds).0.records
  {
  }

  /** Records are only ever added. */
  lemma {:induction false} RecordsOnlyGrow(es: seq<Event>, i: nat, bounds: Bounds)
    requires BoundsOk(bounds) && i <= |es|
    ensures Run(es[..i], bounds).records <= Run(es, bounds).records
  {
    hide Step;
    if i == |es| {
      assert es[..i] == es;
    } else {
      var init := es[..|es| - 1];
      RecordsOnlyGrow(init, i, bounds);
      assert init[..i] == es[..i];
      RecordsOfStep(Run(init, bounds), es[|es| - 1], bounds);
    }
  }

  /** An event that asked the oracle and was allowed writes its own record, unless the store fails. */
  lemma GrantRecord(w: World, e: Event, policy: Policy, bounds: Bounds)
    requires BoundsOk(bounds) && e.Decide?
    requires ActiveIn(StateOf(w.policies, e.who.organizationId), e.now) == Ok(policy)
    requires Hit(w.items, KeyOf(e.who, e.query, policy), e.now).None?
    ensures Step(w, e, bounds).0.records ==
            w.records + if e.storeFails then [] else [AuditRecord(DecisionIn(w, e, policy), false)]
  {
    hide ActiveIn, StateOf, ItemsAfter, DecisionIn;
  }

  /** The record log of a run at its event `i`: what it held before is still there at the end, and
      the grant made by that event comes next, exactly when the store took it. */
  ghost predicate OnRecordExactly(es: seq<Event>, i: nat, grant: AuditRecord, bounds: Bounds)
    requires BoundsOk(bounds) && i < |es|
  {
    var before, after := Run(es[..i], bounds).records, Run(es[..i + 1], bounds).records;
    && es[i].Decide?
    && |after| == |before| + (if es[i].storeFails then 0 else 1)
    && after <= Run(es, bounds).records
    && (!es[i].storeFails ==> after == before + [grant] && Run(es, bounds).records[|before|] == grant)
  }

  /** Behind every allow that is served from the cache there is the event that asked the oracle for
      it, and that event's grant, with the same obligations and the same end, is on record exactly
      when the store did not fail then. */
  lemma ServedGrantIsOnRecordExactly(es: seq<Event>, e: Event, policy: Policy, bounds: Bounds) returns (i: nat)
    requires BoundsOk(bounds) && e.Decide?
    requires ActiveIn(StateOf(Run(es, bounds).policies, e.who.organizationId), e.now) == Ok(policy)
    requires Hit(Run(es, bounds).items, KeyOf(e.who, e.query, policy), e.now).Some?
    ensures Justifies(es, i, KeyOf(e.who, e.query, policy),
                      Hit(Run(es, bounds).items, KeyOf(e.who, e.query, policy), e.now).value, bounds)
    ensures es[i].who == e.who && es[i].query == e.query
    ensures var served := DecisionIn(Run(es, bounds), e, policy);
            var granted := DecisionIn(Run(es[..i], bounds), es[i], policy);
            && served.allowed && granted.allowed
            && served.obligations == granted.obligations
            && served.expiresAt == granted.expiresAt
            && OnRecordExactly(es, i, AuditRecord(granted, false), bounds)
  {
    hide Run, Step, DecisionIn, StateOf;
    i := CachedAllowsAreJustified(es, e, policy, bounds);
    QuietRun(es, i, bounds);
    RunAppended(es[..i], es[i], bounds);
    assert es[..i] + [es[i]] == es[..i + 1];
    SameActive(StateOf(Run(es, bounds).policies, e.who.organizationId), e.now, es[i].now, policy);
    GrantRecord(Run(es[..i], bounds), es[i], policy, bounds);
    RecordsOnlyGrow(es, i + 1, bounds);
  }

  lemma SameActive(state: TrustState<nat>, now: int, now': int, policy: Policy)
    requires ActiveIn(state, now) == Ok(policy)
    ensures ActiveIn(state, now').Ok? ==> ActiveIn(state, now') == Ok(policy)
  {
  }

  /** In a run without store failures every allow served from the cache has its grant on record
      before it: an answer of the oracle, not another hit, for the same tenant, subject, query and
      policy, with the same obligations and the same end. */
  lemma EveryServedGrantIsOnRecord(es: seq<Event>, e: Event, policy: Policy, bounds: Bounds) returns (n: nat)
    requires BoundsOk(bounds) && e.Decide?
    requires forall i | 0 <= i < |es| && es[i].Decide? :: !es[i].storeFails
    requires ActiveIn(StateOf(Run(es, bounds).policies, e.who.organizationId), e.now) == Ok(policy)
    requires Hit(Run(es, bounds).items, KeyOf(e.who, e.query, policy), e.now).Some?
    ensures n < |Run(es, bounds).records|
    ensures var served, record := DecisionIn(Run(es, bounds), e, policy), Run(es, bounds).records[n];
            && !record.cacheHit
            && record.decision.organizationId == served.organizationId
            && record.decision.subjectId == served.subjectId
            && record.decision.query == served.query
            && record.decision.policyDigest == served.policyDigest
            && record.decision.allowed && served.allowed
            && record.decision.obligations == served.obligations
            && record.decision.expiresAt == served.expiresAt
  {
    hide Run, Step, ActiveIn, StateOf, Hit;
    var i := ServedGrantIsOnRecordExactly(es, e, policy, bounds);
    n := |Run(es[..i], bounds).records|;
  }

  lemma RunAppended(es: seq<Event>, e: Event, bounds: Bounds)
    requires BoundsOk(bounds)
    ensures Run(es + [e], bounds) == Step(Run(es, bounds), e, bounds).0
    ensures Delivered(es + [e], bounds) ==
            var reply := Step(Run(es, bounds), e, bounds).1;
            if reply.Decided? then Delivered(es, bounds) + [reply.decision] else Delivered(es, bounds)
  {
    assert (es + [e])[..|es|] == es;
  }

  lemma GrantIsCached(w: World, who: Subject, query: Query, now: int, granted: OracleVerdict, policy: Policy,
                      bounds: Bounds)
    requires BoundsOk(bounds) && w.items == [] && !query.mutation && granted.allowed && 1 <= granted.ttl <= bounds.ttl
    requires ActiveIn(StateOf(w.policies, who.organizationId), now) == Ok(policy)
    ensures Step(w, Decide(who, query, now, Ok(granted), true), bounds) ==
            (w.(items := [Item(KeyOf(who, query, policy), Outcome("ALLOW", granted.obligations, now + granted.ttl))]),
             AuditCommitFailed)
  {
    hide ActiveIn, StateOf;
    var item := Item(KeyOf(who, query, policy), Outcome("ALLOW", granted.obligations, now + granted.ttl));
    assert Without([], item.key) + [item] == [item];
  }

  lemma HitIsServed(w: World, e: Event, policy: Policy, bounds: Bounds)
    requires BoundsOk(bounds) && e.Decide? && !e.storeFails
    requires ActiveIn(StateOf(w.policies, e.who.organizationId), e.now) == Ok(policy)
    requires Hit(w.items, KeyOf(e.who, e.query, policy), e.now).Some?
    ensures Step(w, e, bounds).1.Decided? && Step(w, e, bounds).1.decision.allowed
  {
    hide ActiveIn, StateOf, AfterGet, AfterPut;
  }

  /** So an allow can be served although no earlier decision is on record, and although the oracle
      would now refuse: its first answer could not be committed, but had been cached. */
  lemma UnrecordedGrantIsServed(bounds: Bounds) returns (es: seq<Event>, e: Event)
    requires BoundsOk(bounds)
    ensures e.Decide? && e.answer == Err(OracleUnavailable)
    ensures Delivered(es, bounds) == [] && Run(es, bounds).records == []
    ensures Step(Run(es, bounds), e, bounds).1.Decided? && Step(Run(es, bounds), e, bounds).1.decision.allowed
  {
    var policy: Policy := Artifact("o", "p", "d", 1, 0, 100, None);
    var who, query := Subject("o", "s"), Query("read", "k", "r", "", false);
    var granted: OracleVerdict := Verdict(true, "ALLOW", [], bounds.ttl);
    var activate, first := Activate(policy, 0), Decide(who, query, 0, Ok(granted), true);
    es, e := [activate] + [first], Decide(who, query, 0, Err(OracleUnavailable), false);
    var w := Step(START, activate, bounds).0;
    assert w == World(map["o" := TrustState(Some(policy), None, {})], [], []);
    GrantIsCached(w, who, query, 0, granted, policy, bounds);
    HitIsServed(Step(w, first, bounds).0, e, policy, bounds);
    hide Step;
    RunAppended([], activate, bounds);
    RunAppended([activate], first, bounds);
    assert [] + [activate] == [activate];
  }
}
