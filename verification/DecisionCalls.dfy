/** The calls that a run of decisions and changes of trust makes to its cache. */
module DecisionCalls {
  import opened Results
  import opened TrustStates
  import opened DecisionCaches
  import opened CacheHistories
  import opened PolicyManagers
  import opened DecisionServices
  import opened DecisionTheorems

  /** The cache calls of one decision under an active policy. */
  function DecisionCall(items: seq<Item>, key: CacheKey, answer: Answer, now: int): seq<CacheOp> {
    if key.query.mutation then []
    else if Lookup(items, key, now).None? && answer.Ok? && answer.value.allowed
    then [Fetch(key, now), Store(key, answer.value.reason, answer.value.obligations, now, answer.value.ttl)]
    else [Fetch(key, now)]
  }

  function CallsOf(w: World, e: Event): seq<CacheOp> {
    if ChangesTrust(w, e) then [Wipe]
    else
      match e
      case Decide(who, query, now, answer, _) =>
        (match ActiveIn(StateOf(w.policies, who.organizationId), now)
         case Err(_) => []
         case Ok(policy) => DecisionCall(w.items, KeyOf(who, query, policy), answer, now))
      case _ => []
  }

  /** All of them, in order. */
  function Calls(es: seq<Event>, bounds: Bounds): seq<CacheOp>
    requires BoundsOk(bounds)
  {
    if es == [] then []
    else Calls(es[..|es| - 1], bounds) + CallsOf(Run(es[..|es| - 1], bounds), es[|es| - 1])
  }

  lemma ContentsAppended(h: seq<CacheOp>, op: CacheOp, bounds: Bounds)
    requires BoundsOk(bounds)
    ensures Contents(h + [op], bounds) == After(Contents(h, bounds), op, bounds)
  {
    assert (h + [op])[..|h|] == h;
  }

  lemma DecisionCallActs(h: seq<CacheOp>, key: CacheKey, answer: Answer, now: int, bounds: Bounds)
    requires BoundsOk(bounds)
    ensures var items := Contents(h, bounds);
            Contents(h + DecisionCall(items, key, answer, now), bounds) == ItemsAfter(items, key, answer, now, bounds)
  {
    hide Contents, AfterGet, AfterPut, Lookup;
    var items := Contents(h, bounds);
    var fetch := Fetch(key, now);
    ContentsAppended(h, fetch, bounds);
    if key.query.mutation {
      assert h + [] == h;
    } else if Lookup(items, key, now).None? && answer.Ok? && answer.value.allowed {
      var store := Store(key, answer.value.reason, answer.value.obligations, now, answer.value.ttl);
      ContentsAppended(h + [fetch], store, bounds);
      assert h + [fetch, store] == h + [fetch] + [store];
    }
  }

  /** The cached items of a run are what its cache calls leave. */
  lemma {:induction false} ItemsAreContents(es: seq<Event>, bounds: Bounds)
    requires BoundsOk(bounds)
    ensures Run(es, bounds).items == Contents(Calls(es, bounds), bounds)
  {
    hide Step, ChangesTrust, ActiveIn, StateOf, Contents, DecisionCall, ItemsAfter;
    if es == [] {
      NothingCalled(bounds);
    } else {
      var init, e := es[..|es| - 1], es[|es| - 1];
      var w, h := Run(init, bounds), Calls(init, bounds);
      ItemsAreContents(init, bounds);
      if ChangesTrust(w, e) {
        TrustChangeClears(w, e, bounds);
        ContentsAppended(h, Wipe, bounds);
      } else {
        QuietStep(w, e, bounds);
        StepItems(w, e, bounds);
        assert h + [] == h;
        if e.Decide? && ActiveIn(StateOf(w.policies, e.who.organizationId), e.now).Ok? {
          var policy := ActiveIn(StateOf(w.policies, e.who.organizationId), e.now).value;
          DecisionCallActs(h, KeyOf(e.who, e.query, policy), e.answer, e.now, bounds);
        }
      }
    }
  }

  lemma NothingCalled(bounds: Bounds)
    requires BoundsOk(bounds)
    ensures Contents([], bounds) == []
  {
  }

  /** So in any run of the service a query that does not mutate is answered from the cache only with
      the latest allow put under its key since trust last changed, before it expires; and if no
      earlier cache call had a later clock, the oracle is asked only for want of such an allow, for
      its expiry, or because as many other keys as the cache holds were used since. */
  lemma ServiceCacheIsLeastRecentlyUsed(es: seq<Event>, key: CacheKey, now: int, bounds: Bounds)
    requires BoundsOk(bounds) && !key.query.mutation
    ensures var h := Calls(es, bounds);
            var hit, put := Hit(Run(es, bounds).items, key, now), LatestPut(h, key, bounds);
            && (hit.Some? ==> hit == put && now < put.value.expiresAt)
            && (hit.None? && NotBefore(h, now) ==>
                  put.None? || put.value.expiresAt <= now || |UsedSince(h, key, bounds)| >= bounds.entries)
  {
    hide Run, Calls, Contents, LatestPut, UsedSince, NotBefore, Lookup;
    ItemsAreContents(es, bounds);
    LookupIsLeastRecentlyUsed(Calls(es, bounds), key, now, bounds);
  }
}
