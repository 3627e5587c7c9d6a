/** Tenants do not interfere: a run shows each tenant exactly what the run of that tenant's own
    operations alone would show. */
module TenantIsolation {
  import opened Results
  import opened Dimensions
  import opened UsageModels
  import opened LedgerSpec
  import opened LedgerInvariant
  import opened LedgerSequences
  import opened LedgerRuns
  import opened TenantSlices

  /** What tenant `o` sees of the outcome of a step. */
  function Seen(outcome: (Ledger, Response), o: string): (Ledger, Response) {
    (Slice(outcome.0, o), outcome.1)
  }

  /* ---------- Preparing the candidate inside the slice ---------- */

  lemma {:induction false} ExpiryOfSlice(s: SoundLedger, due: seq<Reservation>, o: string, now: int)
    requires AllLive(s, due, o, now) && o in s.lastClock && s.lastClock[o] == now
    ensures ExpireAll(Slice(s, o), due, now) == SliceOf(ExpireAll(s, due, now), o)
    decreases |due|
  {
    hide Inv, Slice, Settle, Advances;
    if due != [] {
      assert due[0] in due;
      MemberIsOk(s, due[0]);
      MayExpire(s, due[0], o, now);
      var t := ExpiryOf(due[0], now);
      BudgetsAreOk(s);
      SettleOfSlice(s, due[0], t, System);
      var next := SettleAdvances(s, due[0], t, System);
      RestStaysLive(s, due, o, now, next);
      ExpiryOfSlice(next, due[1..], o, now);
    }
  }

  lemma BudgetsAreOk(s: SoundLedger)
    ensures BudgetsOk(s)
  {
  }

  lemma PrepareOfSlice(s: SoundLedger, o: string, now: int)
    ensures Prepare(Slice(s, o), o, now) == SliceOf(Prepare(s, o, now), o)
  {
    hide Inv, AdvanceClock, ExpireAll, Due, Advances;
    ClockOfSlice(s, o, now);
    if AdvanceClock(s, o, now).Ok? {
      var ticked := TickAdvances(s, o, now);
      TickedClock(s, o, now);
      MembersAreDistinct(ticked);
      DueOfSlice(ticked.reservations, o, now);
      DueIsDistinct(ticked.reservations, o, now);
      ExpiryOfSlice(ticked, Due(ticked.reservations, o, now), o, now);
    }
  }

  lemma TickedClock(s: Ledger, o: string, now: int)
    requires AdvanceClock(s, o, now).Ok?
    ensures o in AdvanceClock(s, o, now).value.lastClock && AdvanceClock(s, o, now).value.lastClock[o] == now
  {
  }

  /** If preparing the candidate changed anything, the tenant can see it. */
  lemma PreparationShows(s: SoundLedger, c: Ledger, o: string, now: int)
    requires Prepare(s, o, now) == Ok(c) && Slice(c, o) == Slice(s, o)
    requires CaughtUp(c, o, now)
    ensures c == s
  {
    hide Inv, Pick, BudgetsOf, AggregatesOf, BindingsOf, MarksOf;
    var ticked := AdvanceClock(s, o, now).value;
    var due := Due(ticked.reservations, o, now);
    assert o in ClockOf(c.lastClock, o) && ClockOf(c.lastClock, o)[o] == now;
    assert ticked == s;
    if due != [] {
      var r := due[0];
      assert r in due;
      PickHasNoForeigner(s.reservations, o, r);
      PickHasNoForeigner(c.reservations, o, r);
    }
  }

  /* ---------- Reserve ---------- */

  lemma DenialOfSlice(c: Ledger, who: Identity, request: Request, reason: Denial, now: int)
    ensures Slice(WithDenial(c, who, request, reason, now), who.organizationId) ==
            WithDenial(Slice(c, who.organizationId), who, request, reason, now)
  {
    PickAppended(c.audit, Denied(who.organizationId, who.subjectId, request, reason, now), OfAudit, who.organizationId);
  }

  lemma ProjectedOfSlice(c: Ledger, b: Budget, index: nat, amounts: Dims, now: int)
    ensures Projected(Slice(c, b.organizationId), b, index, amounts, now) == Projected(c, b, index, amounts, now)
  {
    hide Slice, Pick, AggregateAt;
    AggregateOfSlice(c, b, index, now);
  }

  lemma ReserveFromOfSlice(s: Ledger, c: SoundLedger, b: Budget, who: Identity, request: Request, now: int, fails: bool)
    requires request.ReserveRequest? && b.organizationId == who.organizationId
    requires request.organizationId == who.organizationId
    requires IdempotencyKey(who.organizationId, Reserved, request.key) !in c.idempotency
    ensures ReserveFrom(Slice(s, who.organizationId), Slice(c, who.organizationId), b, who, request, now, fails) ==
            Seen(ReserveFrom(s, c, b, who, request, now, fails), who.organizationId)
  {
    hide Inv, Slice, WithDenial, Projected, ExceededDimensions, Admit, BudgetState, WindowAt, FindReservation;
    var o := who.organizationId;
    DenialOfSlice(c, who, request, BudgetSuspended, now);
    DenialOfSlice(c, who, request, BudgetExceeded, now);
    if WindowAt(b, now).Ok? {
      var window := WindowAt(b, now).value;
      ProjectedOfSlice(c, b, window.index, request.requested, now);
      var projected := Projected(c, b, window.index, request.requested, now);
      if projected.Ok? {
        var r := NewReservation(b, who, request, window, ExceededDimensions(projected.value, b.limits), now);
        FreshRequest(c, request);
        AdmitOfSlice(c, b, who, r);
        if Admit(c, b, who, r).Ok? {
          BudgetStateOfSlice(Admit(c, b, who, r).value, b, window.index);
        }
      }
    }
  }

  /** A request whose key is new has no reservation yet. */
  lemma FreshRequest(c: SoundLedger, request: Request)
    requires request.ReserveRequest?
    requires IdempotencyKey(request.organizationId, Reserved, request.key) !in c.idempotency
    ensures FindReservation(c.reservations, ReservationId(request)).None?
  {
    var found := FindReservation(c.reservations, ReservationId(request));
    if found.Some? {
      MemberIsOk(c, found.value);
      KeysAreBound(c, found.value);
    }
  }

  lemma KeysAreBound(c: SoundLedger, r: Reservation)
    requires r in c.reservations
    ensures ReserveKey(r) in c.idempotency
  {
    assert KeysOk(c);
  }

  lemma ReplayReserveOfSlice(c: SoundLedger, o: string, key: string, request: Request)
    requires IdempotencyKey(o, Reserved, key) in c.idempotency
    ensures ReplayReserve(Slice(c, o), c.idempotency[IdempotencyKey(o, Reserved, key)], o, request) ==
            ReplayReserve(c, c.idempotency[IdempotencyKey(o, Reserved, key)], o, request)
  {
    hide Inv, FindReservation, BudgetState;
    var k := IdempotencyKey(o, Reserved, key);
    BindingIsSound(c, k);
    MembersAreDistinct(c);
    FindInSlice(c.reservations, o, c.idempotency[k].id);
    var r := FindReservation(c.reservations, c.idempotency[k].id).value;
    if BudgetKey(o, r.budgetId) in c.budgets {
      FoundBudget(c, o, r.budgetId);
      BudgetStateOfSlice(c, c.budgets[BudgetKey(o, r.budgetId)], r.window.index);
    }
  }

  lemma FindBudgetOfSlice(c: Ledger, o: string, budgetId: string, budgetDigest: string, scopeType: string,
                          scopeId: string)
    ensures FindBudget(Slice(c, o), o, budgetId, budgetDigest, scopeType, scopeId) ==
            FindBudget(c, o, budgetId, budgetDigest, scopeType, scopeId)
  {
  }

  lemma BoundInSlice(c: Ledger, k: IdempotencyKey)
    ensures k in Slice(c, k.organizationId).idempotency <==> k in c.idempotency
    ensures k in c.idempotency ==> Slice(c, k.organizationId).idempotency[k] == c.idempotency[k]
  {
  }

  lemma ReserveOfSlice(s: SoundLedger, who: Identity, terms: ReserveTerms, now: int, fails: bool)
    ensures ReserveStep(Slice(s, who.organizationId), who, terms, now, fails) ==
            Seen(ReserveStep(s, who, terms, now, fails), who.organizationId)
  {
    hide Inv, Slice, Advances, Prepare, Normalized, FindBudget, ReserveFrom, ReplayReserve;
    var o := who.organizationId;
    PrepareOfSlice(s, o, now);
    var c := PrepareKeeps(s, o, now);
    var amounts := Normalized(terms.requested, RequestedInvalid, true);
    if amounts.Ok? && Prepare(s, o, now).Ok? {
      var request := ReserveRequestOf(who, terms, amounts.value);
      var key := IdempotencyKey(o, Reserved, terms.key);
      BoundInSlice(c, key);
      if key in c.idempotency {
        ReplayReserveOfSlice(c, o, terms.key, request);
      } else {
        FindBudgetOfSlice(c, o, terms.budgetId, terms.budgetDigest, terms.scopeType, terms.scopeId);
        var b := FindBudget(c, o, terms.budgetId, terms.budgetDigest, terms.scopeType, terms.scopeId);
        if b.Ok? {
          BudgetIsOwn(c, o, terms.budgetId, terms.budgetDigest, terms.scopeType, terms.scopeId);
          ReserveFromOfSlice(s, c, b.value, who, request, now, fails);
        }
      }
    }
  }

  lemma BudgetIsOwn(c: SoundLedger, o: string, budgetId: string, budgetDigest: string, scopeType: string,
                    scopeId: string)
    requires FindBudget(c, o, budgetId, budgetDigest, scopeType, scopeId).Ok?
    ensures FindBudget(c, o, budgetId, budgetDigest, scopeType, scopeId).value.organizationId == o
  {
    FoundBudget(c, o, budgetId);
  }

  /* ---------- Commit and release ---------- */

  lemma ReplayTransitionOfSlice(c: SoundLedger, o: string, target: ReservationState, key: string, request: Request)
    requires target == Committed || target == Released
    requires IdempotencyKey(o, target, key) in c.idempotency
    ensures ReplayTransition(Slice(c, o), c.idempotency[IdempotencyKey(o, target, key)], request) ==
            ReplayTransition(c, c.idempotency[IdempotencyKey(o, target, key)], request)
  {
    hide Inv, FindTransition;
    var k := IdempotencyKey(o, target, key);
    BindingIsSound(c, k);
    FindTransitionInSlice(c.transitions, o, c.idempotency[k].id);
  }

  lemma TransitionFromOfSlice(s: Ledger, c: SoundLedger, who: Identity, request: Request, now: int, fails: bool)
    requires request.TransitionRequest? && request.organizationId == who.organizationId
    ensures TransitionFrom(Slice(s, who.organizationId), Slice(c, who.organizationId), who, request, now, fails) ==
            Seen(TransitionFrom(s, c, who, request, now, fails), who.organizationId)
  {
    hide Inv, FindReservation, Settle, Pick;
    var o := who.organizationId;
    MembersAreDistinct(c);
    BudgetsAreOk(c);
    FindInSlice(c.reservations, o, request.reservationId);
    var r := FindReservation(c.reservations, request.reservationId);
    if r.Some? && r.value.organizationId == o {
      SettleOfSlice(c, r.value, TransitionOf(request, now), Caller(who.subjectId));
    }
  }

  lemma TransitionOfSlice(s: SoundLedger, who: Identity, reservationId: Id, key: string, observed: Dims,
                          target: ReservationState, reason: string, now: int, fails: bool)
    requires target == Committed || target == Released
    ensures TransitionStep(Slice(s, who.organizationId), who, reservationId, key, observed, target, reason, now,
                           fails) ==
            Seen(TransitionStep(s, who, reservationId, key, observed, target, reason, now, fails), who.organizationId)
  {
    hide Inv, Slice, Advances, Prepare, ReplayTransition, TransitionFrom;
    var o := who.organizationId;
    var request := TransitionRequest(o, reservationId, target, key, observed, reason);
    PrepareOfSlice(s, o, now);
    var c := PrepareKeeps(s, o, now);
    if Prepare(s, o, now).Ok? {
      BoundInSlice(c, IdempotencyKey(o, target, key));
      if IdempotencyKey(o, target, key) in c.idempotency {
        ReplayTransitionOfSlice(c, o, target, key, request);
      } else {
        TransitionFromOfSlice(s, c, who, request, now, fails);
      }
    }
  }

  /* ---------- Evaluate, reconcile, retention, budgets ---------- */

  lemma EvaluationOfSlice(c: Ledger, b: Budget, window: Window, amounts: Dims, now: int)
    ensures EvaluationOf(Slice(c, b.organizationId), b, window, amounts, now) ==
            EvaluationOf(c, b, window, amounts, now)
  {
    hide Slice, Projected, BudgetState, ExceededDimensions;
    ProjectedOfSlice(c, b, window.index, amounts, now);
    BudgetStateOfSlice(c, b, window.index);
  }

  lemma EvaluateFromOfSlice(s: Ledger, c: Ledger, b: Budget, amounts: Dims, now: int, fails: bool)
    requires Slice(c, b.organizationId) == Slice(s, b.organizationId) ==> c == s
    ensures EvaluateFrom(Slice(s, b.organizationId), Slice(c, b.organizationId), b, amounts, now, fails) ==
            Seen(EvaluateFrom(s, c, b, amounts, now, fails), b.organizationId)
  {
    hide Slice, EvaluationOf, MarkReconciled, WindowAt;
    if WindowAt(b, now).Ok? {
      EvaluationOfSlice(c, b, WindowAt(b, now).value, amounts, now);
      MarkOfSlice(c, b, WindowAt(b, now).value.index);
    }
  }

  lemma EvaluateOfSlice(s: SoundLedger, who: Identity, budgetId: string, budgetDigest: string, scopeType: string,
                        scopeId: string, requested: map<string, int>, now: int, fails: bool)
    ensures EvaluateStep(Slice(s, who.organizationId), who, budgetId, budgetDigest, scopeType, scopeId, requested, now,
                         fails) ==
            Seen(EvaluateStep(s, who, budgetId, budgetDigest, scopeType, scopeId, requested, now, fails),
                 who.organizationId)
  {
    hide Inv, Slice, Advances, Prepare, Normalized, FindBudget, EvaluateFrom, CaughtUp;
    var o := who.organizationId;
    PrepareOfSlice(s, o, now);
    var c := PrepareKeeps(s, o, now);
    if Prepare(s, o, now).Ok? {
      FindBudgetOfSlice(c, o, budgetId, budgetDigest, scopeType, scopeId);
      var b := FindBudget(c, o, budgetId, budgetDigest, scopeType, scopeId);
      var amounts := Normalized(requested, RequestedInvalid, true);
      if b.Ok? && amounts.Ok? {
        BudgetIsOwn(c, o, budgetId, budgetDigest, scopeType, scopeId);
        if Slice(c, o) == Slice(s, o) {
          PreparationShows(s, c, o, now);
        }
        EvaluateFromOfSlice(s, c, b.value, amounts.value, now, fails);
      }
    }
  }

  lemma ReconcileFromOfSlice(s: Ledger, c: Ledger, b: Budget, who: Identity, budgetId: string, now: int, fails: bool)
    requires b.organizationId == who.organizationId
    ensures ReconcileFrom(Slice(s, who.organizationId), Slice(c, who.organizationId), b, who, budgetId, now, fails) ==
            Seen(ReconcileFrom(s, c, b, who, budgetId, now, fails), who.organizationId)
  {
    hide Pick, Recomputed, AggregateAt, WindowAt;
    var o := who.organizationId;
    if WindowAt(b, now).Ok? {
      var index := WindowAt(b, now).value.index;
      RecomputedOfSlice(c, b, index, now);
      AggregateOfSlice(c, b, index, now);
      if Recomputed(c, b, index, now).Ok? {
        var finding := ReconcileFrom(s, c, b, who, budgetId, now, false).1.reconciliation;
        PickAppended(c.reconciliations, finding, OfReconciliation, o);
        MarksUpdated(c.reconciled, KeyOf(b, index), finding.status, o);
      }
    }
  }

  lemma ReconcileOfSlice(s: SoundLedger, who: Identity, budgetId: string, now: int, fails: bool)
    ensures ReconcileStep(Slice(s, who.organizationId), who, budgetId, now, fails) ==
            Seen(ReconcileStep(s, who, budgetId, now, fails), who.organizationId)
  {
    hide Inv, Advances, Prepare, ReconcileFrom, Pick;
    var o := who.organizationId;
    PrepareOfSlice(s, o, now);
    var c := PrepareKeeps(s, o, now);
    if Prepare(s, o, now).Ok? && BudgetKey(o, budgetId) in c.budgets {
      FoundBudget(c, o, budgetId);
      ReconcileFromOfSlice(s, c, c.budgets[BudgetKey(o, budgetId)], who, budgetId, now, fails);
    }
  }

  lemma RetentionOfSlice(s: Ledger, who: Identity, budgetId: string, now: int, fails: bool)
    ensures RetentionStep(Slice(s, who.organizationId), who, budgetId, now, fails) ==
            Seen(RetentionStep(s, who, budgetId, now, fails), who.organizationId)
  {
    hide Pick, History, WindowAt, AdvanceClock;
    var o := who.organizationId;
    ClockOfSlice(s, o, now);
    var c := AdvanceClock(s, o, now);
    if c.Ok? && BudgetKey(o, budgetId) in c.value.budgets &&
       WindowAt(c.value.budgets[BudgetKey(o, budgetId)], now).Ok?
    {
      var finding := RetentionStep(s, who, budgetId, now, false).1.retention;
      HistoryOfSlice(c.value.usageEntries, o, budgetId, finding.cutoff);
      PickAppended(c.value.retentions, finding, OfRetention, o);
    }
  }

  lemma AddBudgetOfSlice(s: Ledger, b: Budget, fails: bool)
    ensures AddBudgetStep(Slice(s, b.organizationId), b, fails) == Seen(AddBudgetStep(s, b, fails), b.organizationId)
  {
    BudgetsUpdated(s.budgets, BudgetKey(b.organizationId, b.budgetId), b, b.organizationId);
  }

  /* ---------- Steps and runs ---------- */

  /** A tenant's operation does in the tenant's slice what it does in the whole ledger. */
  lemma StepOfSlice(s: SoundLedger, e: Event)
    ensures Step(Slice(s, TenantOf(e.op)), e) == Seen(Step(s, e), TenantOf(e.op))
  {
    hide Inv, Slice, AddBudgetStep, ReserveStep, TransitionStep, EvaluateStep, ReconcileStep, RetentionStep, Normalized;
    match e.op
    case AddBudget(b) => AddBudgetOfSlice(s, b, e.storeFails);
    case Reserve(who, terms, now) => ReserveOfSlice(s, who, terms, now, e.storeFails);
    case Commit(who, id, key, observed, now) =>
      var amounts := Normalized(observed, ObservedInvalid, false);
      if amounts.Ok? {
        TransitionOfSlice(s, who, id, key, amounts.value, Committed, "USAGE_COMMITTED", now, e.storeFails);
      }
    case Release(who, id, key, reason, now) =>
      TransitionOfSlice(s, who, id, key, Zero(), Released, reason, now, e.storeFails);
    case Evaluate(who, budgetId, digest, scopeType, scopeId, requested, now) =>
      EvaluateOfSlice(s, who, budgetId, digest, scopeType, scopeId, requested, now, e.storeFails);
    case Reconcile(who, budgetId, now) => ReconcileOfSlice(s, who, budgetId, now, e.storeFails);
    case RetentionDue(who, budgetId, now) => RetentionOfSlice(s, who, budgetId, now, e.storeFails);
  }

  /** The run without the operations of other tenants. */
  function Kept(es: seq<Event>, o: string): seq<Event> {
    if es == [] then []
    else
      var earlier := Kept(es[..|es| - 1], o);
      if TenantOf(es[|es| - 1].op) == o then earlier + [es[|es| - 1]] else earlier
  }

  /** The responses that tenant `o` gets in a run. */
  function ResponsesTo(es: seq<Event>, o: string): seq<Response> {
    if es == [] then []
    else
      var init, e := es[..|es| - 1], es[|es| - 1];
      var earlier := ResponsesTo(init, o);
      if TenantOf(e.op) == o then earlier + [Step(Run(EMPTY, init), e).1] else earlier
  }

  /** Erasing every operation of other tenants changes neither the tenant's slice of the ledger
      nor any response it gets. */
  lemma {:induction false} OtherTenantsAreInvisible(es: seq<Event>, o: string)
    ensures Slice(Run(EMPTY, es), o) == Run(EMPTY, Kept(es, o))
    ensures ResponsesTo(es, o) == Responses(EMPTY, Kept(es, o))
  {
    hide Inv, Step, Slice, Evolves;
    if es == [] {
      EmptySlice(o);
    } else {
      var init, e := es[..|es| - 1], es[|es| - 1];
      OtherTenantsAreInvisible(init, o);
      var s := Reach(init);
      if TenantOf(e.op) == o {
        StepOfSlice(s, e);
        assert Kept(es, o)[..|Kept(init, o)|] == Kept(init, o);
      } else {
        var _ := StepKeeps(s, e);
      }
    }
  }

  lemma EmptySlice(o: string)
    ensures Slice(EMPTY, o) == EMPTY
  {
  }

  /** So two runs that agree on one tenant's operations look the same to that tenant. */
  lemma NonInterference(es: seq<Event>, es': seq<Event>, o: string)
    requires Kept(es, o) == Kept(es', o)
    ensures Slice(Run(EMPTY, es), o) == Slice(Run(EMPTY, es'), o)
    ensures ResponsesTo(es, o) == ResponsesTo(es', o)
  {
    OtherTenantsAreInvisible(es, o);
    OtherTenantsAreInvisible(es', o);
  }
}
