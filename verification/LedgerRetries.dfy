/** Idempotency keys over whole runs, and what an evaluation says about a later reservation. */
module LedgerRetries {
  import opened Results
  import opened Dimensions
  import opened UsageModels
  import opened LedgerSpec
  import opened LedgerInvariant
  import opened LedgerSequences
  import opened LedgerAdmission
  import opened LedgerRuns
  import opened TenantSlices

  predicate Regresses(s: Ledger, organizationId: string, now: int) {
    organizationId in s.lastClock && now < s.lastClock[organizationId]
  }

  /* ---------- One use per key ---------- */

  /** For each tenant and key at most one reservation ever exists. */
  lemma OneReservationPerKey(es: seq<Event>, i: nat, j: nat)
    requires i < |Run(EMPTY, es).reservations| && j < |Run(EMPTY, es).reservations|
    requires ReserveKey(Run(EMPTY, es).reservations[i]) == ReserveKey(Run(EMPTY, es).reservations[j])
    ensures i == j
  {
    hide RecordsOk, LogsOk, AccountsOk, Step;
    var s := Reach(es);
    var x, y := s.reservations[i], s.reservations[j];
    assert x in s.reservations && y in s.reservations;
    MemberIsOk(s, x);
  }

  /** For each tenant and key at most one commit and at most one release ever exists. */
  lemma OneTransitionPerKey(es: seq<Event>, i: nat, j: nat)
    requires i < |Run(EMPTY, es).transitions| && j < |Run(EMPTY, es).transitions|
    requires Run(EMPTY, es).transitions[i].keyDigest.OfKey? && Run(EMPTY, es).transitions[j].keyDigest.OfKey?
    requires TransitionKey(Run(EMPTY, es).transitions[i]) == TransitionKey(Run(EMPTY, es).transitions[j])
    ensures i == j
  {
    hide RecordsOk, LogsOk, AccountsOk, Step;
    var s := Reach(es);
    SameKeySameTransition(s, i, j);
  }

  lemma SameKeySameTransition(s: Ledger, i: nat, j: nat)
    requires RecordsOk(s) && KeysOk(s) && i < |s.transitions| && j < |s.transitions|
    requires s.transitions[i].keyDigest.OfKey? && s.transitions[j].keyDigest.OfKey?
    requires TransitionKey(s.transitions[i]) == TransitionKey(s.transitions[j])
    ensures i == j
  {
    var x, y := s.transitions[i], s.transitions[j];
    assert TransitionOk(s, x) && TransitionOk(s, y);
    assert x.request == y.request;
  }

  /* ---------- Retries ---------- */

  /** A reserve call under a bound key changes nothing, and answers from the binding. */
  lemma BoundReserve(s: SoundLedger, who: Identity, terms: ReserveTerms, now: int, fails: bool)
    requires IdempotencyKey(who.organizationId, Reserved, terms.key) in s.idempotency
    ensures ReserveStep(s, who, terms, now, fails).0 == s
    ensures var response := ReserveStep(s, who, terms, now, fails).1;
            var amounts := Normalized(terms.requested, RequestedInvalid, true);
            var binding := s.idempotency[IdempotencyKey(who.organizationId, Reserved, terms.key)];
            if amounts.Err? then response == Refused(RequestedInvalid)
            else if Regresses(s, who.organizationId, now) then response == Refused(ClockRegression)
            else if binding.request != ReserveRequestOf(who, terms, amounts.value)
            then response == Refused(IdempotencyConflict)
            else response.ReservationShown? && response.reservation.reservationId == binding.id
  {
    hide Inv, Evolves, Prepare, ReplayReserve;
    var amounts := Normalized(terms.requested, RequestedInvalid, true);
    var c := PrepareKeeps(s, who.organizationId, now);
    if amounts.Ok? && Prepare(s, who.organizationId, now).Ok? {
      ReplayReserveIsSound(c, who.organizationId, terms.key, ReserveRequestOf(who, terms, amounts.value));
    }
  }

  /** Once a reserve call has shown a reservation, any later call with its key -- at any point of
      the run, with any clock and whether or not the store fails -- leaves the ledger untouched;
      with the same terms it shows the same reservation id, with other terms it is refused. */
  lemma ReserveRetry(es: seq<Event>, who: Identity, terms: ReserveTerms, now: int, fails: bool, more: seq<Event>,
                     who': Identity, terms': ReserveTerms, now': int, fails': bool)
    requires ReserveStep(Run(EMPTY, es), who, terms, now, fails).1.ReservationShown?
    requires who'.organizationId == who.organizationId && terms'.key == terms.key
    ensures var (s1, first) := ReserveStep(Run(EMPTY, es), who, terms, now, fails);
            var s2 := Run(s1, more);
            var (s3, again) := ReserveStep(s2, who', terms', now', fails');
            var amounts := Normalized(terms.requested, RequestedInvalid, true);
            var amounts' := Normalized(terms'.requested, RequestedInvalid, true);
            && s3 == s2
            && amounts.Ok?
            && (if amounts'.Err? then again == Refused(RequestedInvalid)
                else if Regresses(s2, who.organizationId, now') then again == Refused(ClockRegression)
                else if ReserveRequestOf(who', terms', amounts'.value) != ReserveRequestOf(who, terms, amounts.value)
                then again == Refused(IdempotencyConflict)
                else again.ReservationShown? && again.reservation.reservationId == first.reservation.reservationId)
  {
    hide Inv, Step, ReserveStep, Normalized, ReservationsEvolve, LogsGrow, ClosedStayClosed;
    var s := Reach(es);
    var s1 := ReserveKeeps(s, who, terms, now, fails);
    var s2 := RunKeeps(s1, more);
    BoundReserve(s2, who', terms', now', fails');
  }

  lemma BoundTransition(s: SoundLedger, who: Identity, reservationId: Id, key: string, observed: Dims,
                        target: ReservationState, reason: string, now: int, fails: bool)
    requires target == Committed || target == Released
    requires IdempotencyKey(who.organizationId, target, key) in s.idempotency
    ensures TransitionStep(s, who, reservationId, key, observed, target, reason, now, fails).0 == s
    ensures var response := TransitionStep(s, who, reservationId, key, observed, target, reason, now, fails).1;
            var request := TransitionRequest(who.organizationId, reservationId, target, key, observed, reason);
            var binding := s.idempotency[IdempotencyKey(who.organizationId, target, key)];
            if Regresses(s, who.organizationId, now) then response == Refused(ClockRegression)
            else if binding.request != request then response == Refused(IdempotencyConflict)
            else response.TransitionShown? && FindTransition(s.transitions, binding.id) == Some(response.transition)
  {
    hide Inv, Elsewhere, Prepare, ReplayTransition, FindTransition;
    var request := TransitionRequest(who.organizationId, reservationId, target, key, observed, reason);
    var c := PrepareKeeps(s, who.organizationId, now);
    if Prepare(s, who.organizationId, now).Ok? {
      ReplayTransitionIsSound(s, c, who.organizationId, target, key, request);
    }
  }

  /** The same for commits and releases: a retry shows exactly the original transition. */
  lemma TransitionRetry(es: seq<Event>, who: Identity, id: Id, key: string, observed: Dims, target: ReservationState,
                        reason: string, now: int, fails: bool, more: seq<Event>,
                        who': Identity, id': Id, observed': Dims, reason': string, now': int, fails': bool)
    requires target == Committed || (target == Released && observed == Zero())
    requires TransitionStep(Run(EMPTY, es), who, id, key, observed, target, reason, now, fails).1.TransitionShown?
    requires who'.organizationId == who.organizationId
    ensures var (s1, first) := TransitionStep(Run(EMPTY, es), who, id, key, observed, target, reason, now, fails);
            var s2 := Run(s1, more);
            var (s3, again) := TransitionStep(s2, who', id', key, observed', target, reason', now', fails');
            && s3 == s2
            && (if Regresses(s2, who.organizationId, now') then again == Refused(ClockRegression)
                else if id' == id && observed' == observed && reason' == reason then again == first
                else again == Refused(IdempotencyConflict))
  {
    hide Inv, Step, TransitionStep, FindTransition, ReservationsEvolve, ClosedStayClosed;
    var s := Reach(es);
    var s1 := TransitionKeeps(s, who, id, key, observed, target, reason, now, fails);
    var s2 := RunKeeps(s1, more);
    BoundTransition(s2, who', id', key, observed', target, reason', now', fails');
    var k := IdempotencyKey(who.organizationId, target, key);
    FindTransitionExtended(s1.transitions, s2.transitions, s1.idempotency[k].id);
  }

  /* ---------- Evaluate predicts reserve ---------- */

  lemma {:induction false} NothingDue(rs: seq<Reservation>, organizationId: string, now: int)
    requires forall r | r in rs :: !IsDue(r, organizationId, now)
    ensures Due(rs, organizationId, now) == []
  {
    if rs != [] {
      NothingDue(rs[..|rs| - 1], organizationId, now);
    }
  }

  /** A ledger that is caught up at `now` is prepared already. */
  lemma PrepareIsIdle(s: Ledger, organizationId: string, now: int)
    requires CaughtUp(s, organizationId, now)
    ensures Prepare(s, organizationId, now) == Ok(s)
  {
    assert s.lastClock[organizationId := now] == s.lastClock;
    NothingDue(s.reservations, organizationId, now);
  }

  /** What a reserve call answers once the projected totals of the window are known. */
  ghost predicate Predicted(b: Budget, exceeded: seq<string>, window: Window, response: Response) {
    if !b.enabled then response == Refused(BudgetSuspended)
    else if exceeded != [] && b.enforcement == Hard then response == Refused(BudgetExceeded)
    else
      && response.ReservationShown?
      && response.reservation.exceeded == exceeded
      && response.reservation.window == window
      && response.reservation.state == Reserved
  }

  lemma GrantFollowsProjection(s: SoundLedger, c: SoundLedger, b: Budget, who: Identity, request: Request, now: int,
                               window: Window, projected: Dims)
    requires CaughtUp(c, who.organizationId, now)
    requires request.ReserveRequest? && request.organizationId == who.organizationId && request.budgetId == b.budgetId
    requires BudgetKey(who.organizationId, b.budgetId) in c.budgets
    requires c.budgets[BudgetKey(who.organizationId, b.budgetId)] == b
    requires IdempotencyKey(who.organizationId, Reserved, request.key) !in c.idempotency
    requires 1 <= request.ttlSeconds <= Min(3600, b.reservationTtlSeconds)
    requires WindowAt(b, now) == Ok(window)
    requires Projected(c, b, window.index, request.requested, now) == Ok(projected)
    ensures Predicted(b, ExceededDimensions(projected, b.limits), window,
                      ReserveFrom(s, c, b, who, request, now, false).1)
  {
    hide Inv, Evolves, Admit, BudgetState, Projected, AdmitEffect, MayAdmit, ExceededDimensions, WindowAt;
    var exceeded := ExceededDimensions(projected, b.limits);
    if b.enabled && !(exceeded != [] && b.enforcement == Hard) {
      MayReserve(c, b, who, request, now, window, projected);
      var next := AdmitKeeps(c, b, who, NewReservation(b, who, request, window, exceeded, now));
      BudgetStateIsSound(next, b, window.index);
    }
  }

  /** What a reserve call answers on a ledger whose candidate is known. */
  lemma ReserveFollowsProjection(s: SoundLedger, c: SoundLedger, who: Identity, terms: ReserveTerms, amounts: Dims,
                                 now: int,
                                 b: Budget, window: Window, projected: Dims)
    requires Prepare(s, who.organizationId, now) == Ok(c) && CaughtUp(c, who.organizationId, now)
    requires Normalized(terms.requested, RequestedInvalid, true) == Ok(amounts)
    requires FindBudget(c, who.organizationId, terms.budgetId, terms.budgetDigest, terms.scopeType, terms.scopeId) ==
             Ok(b)
    requires IdempotencyKey(who.organizationId, Reserved, terms.key) !in c.idempotency
    requires 1 <= terms.ttlSeconds <= Min(3600, b.reservationTtlSeconds)
    requires WindowAt(b, now) == Ok(window)
    requires Projected(c, b, window.index, amounts, now) == Ok(projected)
    ensures Predicted(b, ExceededDimensions(projected, b.limits), window, ReserveStep(s, who, terms, now, false).1)
  {
    hide Inv, Evolves, Prepare, Normalized, Projected, ExceededDimensions, WindowAt, ReserveFrom;
    FoundBudget(c, who.organizationId, terms.budgetId);
    GrantFollowsProjection(s, c, b, who, ReserveRequestOf(who, terms, amounts), now, window, projected);
  }

  /** What an evaluation that returned has found out about its candidate. */
  lemma EvaluationExplained(s: SoundLedger, who: Identity, terms: ReserveTerms, now: int, fails: bool)
    returns (c: SoundLedger, b: Budget, amounts: Dims, projected: Dims)
    requires EvaluateStep(s, who, terms.budgetId, terms.budgetDigest, terms.scopeType, terms.scopeId, terms.requested,
                          now, fails).1.EvaluationShown?
    ensures Prepare(s, who.organizationId, now) == Ok(c) && Prepared(s, c, who.organizationId, now)
    ensures Normalized(terms.requested, RequestedInvalid, true) == Ok(amounts)
    ensures FindBudget(c, who.organizationId, terms.budgetId, terms.budgetDigest, terms.scopeType, terms.scopeId) ==
            Ok(b)
    ensures var (s', response) :=
              EvaluateStep(s, who, terms.budgetId, terms.budgetDigest, terms.scopeType, terms.scopeId, terms.requested,
                           now, fails);
            && WindowAt(b, now) == Ok(response.evaluation.window)
            && Projected(c, b, response.evaluation.window.index, amounts, now) == Ok(projected)
            && response.evaluation.exceeded == ExceededDimensions(projected, b.limits)
            && response.evaluation.allowed ==
                (b.enabled && (response.evaluation.exceeded == [] || b.enforcement == Advisory))
            && (s' == s || s' == c || MarkReconciled(c, b, response.evaluation.window.index) == Ok(s'))
  {
    hide Inv, Prepare, Normalized, Projected, ExceededDimensions, WindowAt, BudgetState, MarkReconciled, FindBudget;
    c := PrepareKeeps(s, who.organizationId, now);
    amounts := Normalized(terms.requested, RequestedInvalid, true).value;
    b := FindBudget(c, who.organizationId, terms.budgetId, terms.budgetDigest, terms.scopeType, terms.scopeId).value;
    projected := Projected(c, b, WindowAt(b, now).value.index, amounts, now).value;
  }

  /** If an evaluation returns, a reserve call for the same budget, scope, amounts and time, with
      a fresh key, a valid lifetime and a working store, grants the reservation exactly when the
      evaluation said `allowed`, with the same exceeded dimensions, and is otherwise refused as
      suspended or exceeded. This holds from the ledger before the evaluation and after it. */
  lemma EvaluatePredictsReserve(es: seq<Event>, who: Identity, terms: ReserveTerms, now: int, fails: bool, after: bool)
    requires EvaluateStep(Run(EMPTY, es), who, terms.budgetId, terms.budgetDigest, terms.scopeType, terms.scopeId,
                          terms.requested, now, fails).1.EvaluationShown?
    requires IdempotencyKey(who.organizationId, Reserved, terms.key) !in Run(EMPTY, es).idempotency
    requires BudgetKey(who.organizationId, terms.budgetId) in Run(EMPTY, es).budgets ==>
               1 <= terms.ttlSeconds <=
               Min(3600, Run(EMPTY, es).budgets[BudgetKey(who.organizationId, terms.budgetId)].reservationTtlSeconds)
    ensures var s := Run(EMPTY, es);
            var (s', answer) := EvaluateStep(s, who, terms.budgetId, terms.budgetDigest, terms.scopeType, terms.scopeId,
                                             terms.requested, now, fails);
            var response := ReserveStep(if after then s' else s, who, terms, now, false).1;
            && BudgetKey(who.organizationId, terms.budgetId) in s.budgets
            && (answer.evaluation.allowed <==> response.ReservationShown?)
            && (answer.evaluation.allowed ==> response.reservation.exceeded == answer.evaluation.exceeded)
            && (!answer.evaluation.allowed ==>
                  response ==
                      Refused(if s.budgets[BudgetKey(who.organizationId, terms.budgetId)].enabled then BudgetExceeded
                                      else BudgetSuspended))
  {
    hide Inv, Evolves, Step, Prepare, Normalized, Projected, ExceededDimensions, WindowAt, EvaluateStep, ReserveStep,
        CaughtUp;
    var s := Reach(es);
    var c, b, amounts, projected := EvaluationExplained(s, who, terms, now, fails);
    var (s', answer) := EvaluateStep(s, who, terms.budgetId, terms.budgetDigest, terms.scopeType, terms.scopeId,
                                     terms.requested, now, fails);
    var window := answer.evaluation.window;
    if !after || s' == s {
      ReserveFollowsProjection(s, c, who, terms, amounts, now, b, window, projected);
    } else {
      var next := AfterEvaluation(c, s', b, who.organizationId, window.index, amounts, now);
      ReserveFollowsProjection(next, next, who, terms, amounts, now, b, window, projected);
    }
  }

  /** The ledger an evaluation publishes is prepared, and projects the same totals. */
  lemma AfterEvaluation(c: SoundLedger, s': Ledger, b: Budget, organizationId: string, index: nat, amounts: Dims,
                        now: int)
    returns (next: SoundLedger)
    requires CaughtUp(c, organizationId, now)
    requires s' == c || MarkReconciled(c, b, index) == Ok(s')
    ensures next == s'
    ensures Prepare(next, organizationId, now) == Ok(next) && CaughtUp(next, organizationId, now)
    ensures Projected(next, b, index, amounts, now) == Projected(c, b, index, amounts, now)
    ensures next.budgets == c.budgets && next.idempotency == c.idempotency
  {
    hide Inv;
    var marked := MarkAdvances(c, b, index);
    next := if s' == c then c else marked;
    PrepareIsIdle(next, organizationId, now);
  }

  /** A reserve call overflows only when its own request does not fit on top of what the window
      already holds. */
  lemma OverflowIsTheRequests(es: seq<Event>, who: Identity, terms: ReserveTerms, now: int, fails: bool)
    returns (c: Ledger, b: Budget, amounts: Dims)
    requires ReserveStep(Run(EMPTY, es), who, terms, now, fails).1 == Refused(DimensionOverflow)
    ensures Prepare(Run(EMPTY, es), who.organizationId, now) == Ok(c)
    ensures Normalized(terms.requested, RequestedInvalid, true) == Ok(amounts)
    ensures FindBudget(c, who.organizationId, terms.budgetId, terms.budgetDigest, terms.scopeType, terms.scopeId) ==
            Ok(b)
    ensures WindowAt(b, now).Ok?
    ensures var k := KeyOf(b, WindowAt(b, now).value.index);
            exists d | 0 <= d < COUNT :: CommittedAt(c, k)[d] + ReservedAt(c, k)[d] + amounts[d] > SAFE_INTEGER_MAX
  {
    hide Inv, Evolves, Step, Prepare, Normalized, ReserveFrom, ReplayReserve;
    var s := Reach(es);
    var candidate := PrepareKeeps(s, who.organizationId, now);
    var _ := ReserveKeeps(s, who, terms, now, fails);
    c := candidate;
    amounts := Normalized(terms.requested, RequestedInvalid, true).value;
    var request := ReserveRequestOf(who, terms, amounts);
    if IdempotencyKey(who.organizationId, Reserved, terms.key) in c.idempotency {
      ReplayReserveIsSound(candidate, who.organizationId, terms.key, request);
    }
    b := FindBudget(c, who.organizationId, terms.budgetId, terms.budgetDigest, terms.scopeType, terms.scopeId).value;
    FoundBudget(candidate, who.organizationId, terms.budgetId);
    var _ := ReserveFromKeeps(s, candidate, b, who, request, now, fails);
    ProjectionOverflows(c, b, WindowAt(b, now).value.index, amounts, now);
  }

  /** So does an evaluation: it overflows only when the amounts it was asked about do not fit. */
  lemma EvaluationOverflowIsTheRequests(es: seq<Event>, who: Identity, terms: ReserveTerms, now: int, fails: bool)
    returns (c: Ledger, b: Budget, amounts: Dims)
    requires EvaluateStep(Run(EMPTY, es), who, terms.budgetId, terms.budgetDigest, terms.scopeType, terms.scopeId,
                          terms.requested, now, fails).1 == Refused(DimensionOverflow)
    ensures Prepare(Run(EMPTY, es), who.organizationId, now) == Ok(c)
    ensures Normalized(terms.requested, RequestedInvalid, true) == Ok(amounts)
    ensures FindBudget(c, who.organizationId, terms.budgetId, terms.budgetDigest, terms.scopeType, terms.scopeId) ==
            Ok(b)
    ensures WindowAt(b, now).Ok?
    ensures var k := KeyOf(b, WindowAt(b, now).value.index);
            exists d | 0 <= d < COUNT :: CommittedAt(c, k)[d] + ReservedAt(c, k)[d] + amounts[d] > SAFE_INTEGER_MAX
  {
    hide Inv, Evolves, Elsewhere, Step, Prepare, Normalized, Projected, BudgetState, MarkReconciled, WindowAt, CaughtUp;
    var s := Reach(es);
    var candidate := PrepareKeeps(s, who.organizationId, now);
    c := candidate;
    amounts := Normalized(terms.requested, RequestedInvalid, true).value;
    b := FindBudget(c, who.organizationId, terms.budgetId, terms.budgetDigest, terms.scopeType, terms.scopeId).value;
    var index := WindowAt(b, now).value.index;
    BudgetStateIsSound(candidate, b, index);
    var _ := MarkAdvances(candidate, b, index);
    ProjectionOverflows(c, b, index, amounts, now);
  }

  lemma ProjectionOverflows(c: Ledger, b: Budget, index: nat, amounts: Dims, now: int)
    requires Projected(c, b, index, amounts, now).Err?
    ensures exists d | 0 <= d < COUNT ::
              CommittedAt(c, KeyOf(b, index))[d] + ReservedAt(c, KeyOf(b, index))[d] + amounts[d] > SAFE_INTEGER_MAX
  {
    var aggregate := AggregateAt(c, b, index, now);
    var sum := Plus(Plus(aggregate.committed, aggregate.reserved), amounts);
    var d :| 0 <= d < COUNT && sum[d] > SAFE_INTEGER_MAX;
    assert CommittedAt(c, KeyOf(b, index))[d] + ReservedAt(c, KeyOf(b, index))[d] + amounts[d] > SAFE_INTEGER_MAX;
  }
}
