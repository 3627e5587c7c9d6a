/** Every operation keeps the invariant and only ever extends the ledger; so does every run. */
module LedgerRuns {
  import opened Results
  import opened Dimensions
  import opened UsageModels
  import opened LedgerSpec
  import opened LedgerInvariant
  import opened LedgerSequences
  import opened LedgerSettlement
  import opened LedgerAdmission
  import opened TenantSlices

  /** A later ledger of the same run, reached by operations of tenant `actor` only. */
  ghost predicate Advances(s: Ledger, s': Ledger, actor: string) {
    Evolves(s, s') && Elsewhere(s, s', actor)
  }

  lemma AdvancesIsTransitive(s: Ledger, m: Ledger, s': Ledger, actor: string)
    requires Advances(s, m, actor) && Advances(m, s', actor)
    ensures Advances(s, s', actor)
  {
    hide Slice;
    EvolvesIsTransitive(s, m, s');
  }

  lemma AdvancesIsReflexive(s: Ledger, actor: string)
    ensures Advances(s, s, actor)
  {
  }

  lemma MembersAreDistinct(c: SoundLedger)
    ensures DistinctIds(c.reservations)
  {
    assert ReservationsOk(c);
  }

  lemma MemberIsOk(c: SoundLedger, r: Reservation)
    requires r in c.reservations
    ensures ReservationOk(c, r)
    ensures DistinctIds(c.reservations)
  {
    assert ReservationsOk(c);
  }

  /* ---------- The single updates, as advances by their own tenant ---------- */

  lemma SettleAdvances(c: SoundLedger, r: Reservation, t: Transition, subject: Subject) returns (next: SoundLedger)
    requires MaySettle(c, r, t)
    ensures Settle(c, r, t, subject) == Ok(next)
    ensures SettleEffect(c, r, t, subject, next)
    ensures Advances(c, next, r.organizationId)
  {
    hide Inv, Evolves, Elsewhere, Settle, SettleEffect;
    MemberIsOk(c, r) by {
      assert r in c.reservations;
    }
    next := SettleKeeps(c, r, t, subject);
    SettleElsewhere(c, r, t, subject, next);
  }

  lemma AdmitAdvances(c: SoundLedger, b: Budget, who: Identity, r: Reservation) returns (next: SoundLedger)
    requires MayAdmit(c, b, who, r) && r.organizationId == who.organizationId
    ensures Admit(c, b, who, r) == Ok(next)
    ensures AdmitEffect(c, who, r, next)
    ensures Advances(c, next, who.organizationId)
  {
    hide Inv, Evolves, Elsewhere, Admit, AdmitEffect, MayAdmit;
    next := AdmitKeeps(c, b, who, r);
    AdmitElsewhere(c, who, r, next);
  }

  lemma DenialAdvances(c: SoundLedger, who: Identity, request: Request, reason: Denial, now: int)
    returns (next: SoundLedger)
    requires reason in {BudgetSuspended, BudgetExceeded}
    ensures next == WithDenial(c, who, request, reason, now)
    ensures Advances(c, next, who.organizationId)
  {
    hide Inv, Evolves, Elsewhere, WithDenial;
    DenialKeeps(c, who, request, reason, now);
    DenialElsewhere(c, who, request, reason, now);
    next := WithDenial(c, who, request, reason, now);
  }

  lemma MarkAdvances(c: SoundLedger, b: Budget, index: nat) returns (next: SoundLedger)
    ensures MarkReconciled(c, b, index) == Ok(next)
    ensures next == c.(reconciled := c.reconciled[KeyOf(b, index) := Match])
    ensures Advances(c, next, b.organizationId)
  {
    hide RecordsOk, KeysOk, LogsOk, Evolves, Elsewhere, MarkReconciled;
    MarkingMatches(c, b, index);
    var marked := c.(reconciled := c.reconciled[KeyOf(b, index) := Match]);
    FindingKeeps(c, marked);
    MarkElsewhere(c, KeyOf(b, index));
    next := marked;
  }

  lemma ReconciliationAdvances(c: SoundLedger, k: AggregateKey, finding: ReconciliationFinding)
    returns (next: SoundLedger)
    requires finding.status == Match && finding.organizationId == k.organizationId
    ensures next == c.(reconciliations := c.reconciliations + [finding], reconciled := c.reconciled[k := Match])
    ensures Advances(c, next, k.organizationId)
  {
    hide RecordsOk, KeysOk, LogsOk, Evolves, Elsewhere;
    var found := c.(reconciliations := c.reconciliations + [finding], reconciled := c.reconciled[k := Match]);
    FindingKeeps(c, found);
    ReconciliationElsewhere(c, k, finding);
    next := found;
  }

  lemma RetentionAdvances(c: SoundLedger, finding: RetentionFinding) returns (next: SoundLedger)
    ensures next == c.(retentions := c.retentions + [finding])
    ensures Advances(c, next, finding.organizationId)
  {
    hide RecordsOk, KeysOk, LogsOk, Evolves, Elsewhere;
    var found := c.(retentions := c.retentions + [finding]);
    FindingKeeps(c, found);
    RetentionElsewhere(c, finding);
    next := found;
  }

  lemma TickAdvances(s: SoundLedger, organizationId: string, now: int) returns (c: SoundLedger)
    requires AdvanceClock(s, organizationId, now).Ok?
    ensures AdvanceClock(s, organizationId, now) == Ok(c)
    ensures Advances(s, c, organizationId)
  {
    hide Inv, Evolves, Elsewhere, AdvanceClock;
    var ticked := AdvanceClock(s, organizationId, now).value;
    TickKeeps(s, ticked, organizationId, now);
    ClockElsewhere(s, organizationId, now, ticked);
    c := ticked;
  }

  /* ---------- Clock and expiry ---------- */

  ghost predicate AllLive(s: Ledger, due: seq<Reservation>, organizationId: string, now: int) {
    && DistinctIds(due)
    && forall r | r in due :: r in s.reservations && IsDue(r, organizationId, now)
  }

  lemma MayExpire(s: Ledger, r: Reservation, organizationId: string, now: int)
    requires ReservationOk(s, r) && r in s.reservations && IsDue(r, organizationId, now)
    requires organizationId in s.lastClock && s.lastClock[organizationId] == now
    ensures MaySettle(s, r, ExpiryOf(r, now))
  {
  }

  /** Expiring one reservation leaves the others of the list in place. */
  lemma RestStaysLive(s: Ledger, due: seq<Reservation>, organizationId: string, now: int, s': Ledger)
    requires due != [] && AllLive(s, due, organizationId, now) && DistinctIds(s.reservations)
    requires s'.reservations == WithState(s.reservations, due[0].reservationId, Expired)
    ensures AllLive(s', due[1..], organizationId, now)
  {
    assert due[0] in due;
    WithStateIsInPlace(s.reservations, due[0], Expired);
    forall r | r in due[1..] ensures r in s'.reservations && IsDue(r, organizationId, now) {
      var i :| 0 <= i < |due[1..]| && due[1..][i] == r;
      assert due[i + 1] in due;
      assert due[0].reservationId != due[i + 1].reservationId;
    }
  }

  /** Everything that becomes due was due from the start and on the list. */
  ghost predicate CoversDue(s: Ledger, due: seq<Reservation>, organizationId: string, now: int) {
    forall r | r in s.reservations && IsDue(r, organizationId, now) :: r in due
  }

  lemma RestStillCovers(s: Ledger, due: seq<Reservation>, organizationId: string, now: int, s': Ledger)
    requires due != [] && due[0] in s.reservations && DistinctIds(s.reservations)
    requires CoversDue(s, due, organizationId, now)
    requires s'.reservations == WithState(s.reservations, due[0].reservationId, Expired)
    ensures CoversDue(s', due[1..], organizationId, now)
  {
    WithStateIsInPlace(s.reservations, due[0], Expired);
    forall r | r in s'.reservations && IsDue(r, organizationId, now) ensures r in due[1..] {
      assert r in due && r != due[0];
      assert due == [due[0]] + due[1..];
    }
  }

  /** The clock stands at `now` and nothing of the tenant has outlived its expiry. */
  ghost predicate CaughtUp(s: Ledger, organizationId: string, now: int) {
    && organizationId in s.lastClock
    && s.lastClock[organizationId] == now
    && (forall r | r in s.reservations :: !IsDue(r, organizationId, now))
  }

  /** What an operation may rely on about the candidate it works on. */
  ghost predicate Prepared(s: Ledger, c: Ledger, organizationId: string, now: int) {
    && c.budgets == s.budgets
    && c.idempotency == s.idempotency
    && c.usageEntries == s.usageEntries
    && CaughtUp(c, organizationId, now)
  }

  lemma CaughtUpAfterSettling(c: Ledger, r: Reservation, t: Transition, subject: Subject, next: Ledger,
                              organizationId: string, now: int)
    requires CaughtUp(c, organizationId, now) && t.state != Reserved && SettleEffect(c, r, t, subject, next)
    ensures CaughtUp(next, organizationId, now)
  {
    forall x | x in next.reservations ensures !IsDue(x, organizationId, now) {
      var i :| 0 <= i < |next.reservations| && next.reservations[i] == x;
      assert c.reservations[i] in c.reservations;
    }
  }

  lemma CaughtUpAfterAdmitting(c: Ledger, who: Identity, r: Reservation, next: Ledger, organizationId: string, now: int)
    requires CaughtUp(c, organizationId, now) && now < r.expiresAt && AdmitEffect(c, who, r, next)
    ensures CaughtUp(next, organizationId, now)
  {
  }

  /** The expiry loop never fails, and afterwards nothing of the tenant is due. */
  lemma {:induction false} ExpiryKeeps(s: SoundLedger, due: seq<Reservation>, organizationId: string, now: int)
    returns (c: SoundLedger)
    requires AllLive(s, due, organizationId, now) && CoversDue(s, due, organizationId, now)
    requires organizationId in s.lastClock && s.lastClock[organizationId] == now
    ensures ExpireAll(s, due, now) == Ok(c)
    ensures Advances(s, c, organizationId)
    ensures Prepared(s, c, organizationId, now)
    decreases |due|
  {
    hide Inv;
    if due == [] {
      c := s;
      AdvancesIsReflexive(s, organizationId);
    } else {
      assert due[0] in due;
      MemberIsOk(s, due[0]);
      MayExpire(s, due[0], organizationId, now);
      var next := SettleAdvances(s, due[0], ExpiryOf(due[0], now), System);
      RestStaysLive(s, due, organizationId, now, next);
      RestStillCovers(s, due, organizationId, now, next);
      c := ExpiryKeeps(next, due[1..], organizationId, now);
      AdvancesIsTransitive(s, next, c, organizationId);
    }
  }

  /** Preparing the candidate fails exactly on a clock regression. */
  lemma PrepareKeeps(s: SoundLedger, organizationId: string, now: int) returns (c: SoundLedger)
    ensures if organizationId in s.lastClock && now < s.lastClock[organizationId]
            then Prepare(s, organizationId, now) == Err(ClockRegression)
            else Prepare(s, organizationId, now) == Ok(c)
    ensures Advances(s, c, organizationId)
    ensures Prepare(s, organizationId, now).Ok? ==> Prepared(s, c, organizationId, now)
  {
    hide Inv, Advances;
    if AdvanceClock(s, organizationId, now).Ok? {
      var ticked := TickAdvances(s, organizationId, now);
      MembersAreDistinct(ticked);
      var due := Due(ticked.reservations, organizationId, now);
      DueIsDistinct(ticked.reservations, organizationId, now);
      c := ExpiryKeeps(ticked, due, organizationId, now);
      AdvancesIsTransitive(s, ticked, c, organizationId);
    } else {
      c := s;
      AdvancesIsReflexive(s, organizationId);
    }
  }

  /* ---------- Operations ---------- */

  /** The key of a granted or replayed reservation is bound to the request and the id shown. */
  ghost predicate BindsReservation(s: Ledger, organizationId: string, request: Request, response: Response)
    requires request.ReserveRequest?
  {
    response.ReservationShown? ==>
      var k := IdempotencyKey(organizationId, Reserved, request.key);
      k in s.idempotency && s.idempotency[k] == Binding(request, response.reservation.reservationId)
  }

  ghost predicate BindsTransition(s: Ledger, organizationId: string, request: Request, response: Response)
    requires request.TransitionRequest?
  {
    response.TransitionShown? ==>
      var k := IdempotencyKey(organizationId, request.target, request.key);
      && k in s.idempotency
      && s.idempotency[k].request == request
      && FindTransition(s.transitions, s.idempotency[k].id) == Some(response.transition)
  }

  /** Not a reason code the ledger intends: a missing dictionary key or a counter below zero. */
  predicate IsInternal(response: Response) {
    response == Refused(KeyMissing) || response == Refused(CounterUnderflow)
  }

  lemma BookedTotalIsSafe(s: Ledger, k: AggregateKey)
    requires BooksOk(s) && CapsOk(s)
    ensures IsSafe(Plus(CommittedAt(s, k), ReservedAt(s, k)))
  {
    forall d | 0 <= d < COUNT ensures Plus(CommittedAt(s, k), ReservedAt(s, k))[d] <= SAFE_INTEGER_MAX {
      assert CommittedAt(s, k)[d] == CommittedIn(s.usageEntries, k, d);
      assert ReservedAt(s, k)[d] == ReservedIn(s.reservations, k, d);
      assert CommittedIn(s.usageEntries, k, d) + ReservedIn(s.reservations, k, d) <= SAFE_INTEGER_MAX;
    }
  }

  lemma BudgetStateOfMarked(s: Ledger, b: Budget, index: nat)
    requires MarksOk(s) && IsSafe(Plus(CommittedAt(s, KeyOf(b, index)), ReservedAt(s, KeyOf(b, index))))
    ensures BudgetState(s, b, index).Ok?
    ensures BudgetState(s, b, index) != Ok(ResetPending)
  {
  }

  /** The state of a budget is always computable, and never waits for a reconciliation. */
  lemma BudgetStateIsSound(s: SoundLedger, b: Budget, index: nat)
    ensures BudgetState(s, b, index).Ok?
    ensures BudgetState(s, b, index) != Ok(ResetPending)
  {
    BookedTotalIsSafe(s, KeyOf(b, index));
    BudgetStateOfMarked(s, b, index);
  }

  lemma FoundBudget(c: SoundLedger, organizationId: string, budgetId: string)
    requires BudgetKey(organizationId, budgetId) in c.budgets
    ensures c.budgets[BudgetKey(organizationId, budgetId)].organizationId == organizationId
    ensures c.budgets[BudgetKey(organizationId, budgetId)].budgetId == budgetId
  {
    assert BudgetsOk(c);
  }

  lemma MayReserve(c: SoundLedger, b: Budget, who: Identity, request: Request, now: int, window: Window,
                   projected: Dims)
    requires request.ReserveRequest? && request.organizationId == who.organizationId && request.budgetId == b.budgetId
    requires BudgetKey(who.organizationId, b.budgetId) in c.budgets
    requires c.budgets[BudgetKey(who.organizationId, b.budgetId)] == b
    requires who.organizationId in c.lastClock && c.lastClock[who.organizationId] == now
    requires IdempotencyKey(who.organizationId, Reserved, request.key) !in c.idempotency
    requires 1 <= request.ttlSeconds
    requires WindowAt(b, now) == Ok(window)
    requires Projected(c, b, window.index, request.requested, now) == Ok(projected)
    requires b.enforcement == Hard ==> ExceededDimensions(projected, b.limits) == []
    ensures MayAdmit(c, b, who, NewReservation(b, who, request, window, ExceededDimensions(projected, b.limits), now))
  {
    var r := NewReservation(b, who, request, window, ExceededDimensions(projected, b.limits), now);
    assert BudgetsOk(c);
    assert ReservationOk(c, r);
    var k := ReservationKey(r);
    assert AggregateAt(c, b, window.index, now).committed == CommittedAt(c, k);
    assert AggregateAt(c, b, window.index, now).reserved == ReservedAt(c, k);
    forall d | 0 <= d < COUNT
      ensures CommittedAt(c, k)[d] + ReservedAt(c, k)[d] + r.requested[d] <= SAFE_INTEGER_MAX
      ensures b.enforcement == Hard ==> CommittedAt(c, k)[d] + ReservedAt(c, k)[d] + r.requested[d] <= b.limits[d]
    {
      assert projected[d] == CommittedAt(c, k)[d] + ReservedAt(c, k)[d] + r.requested[d];
    }
  }

  lemma ReserveFromKeeps(s: SoundLedger, c: SoundLedger, b: Budget, who: Identity, request: Request, now: int,
                         fails: bool)
    returns (s': SoundLedger)
    requires Advances(s, c, who.organizationId) && Prepared(s, c, who.organizationId, now)
    requires request.ReserveRequest? && request.organizationId == who.organizationId && request.budgetId == b.budgetId
    requires BudgetKey(who.organizationId, b.budgetId) in c.budgets
    requires c.budgets[BudgetKey(who.organizationId, b.budgetId)] == b
    requires IdempotencyKey(who.organizationId, Reserved, request.key) !in c.idempotency
    ensures ReserveFrom(s, c, b, who, request, now, fails).0 == s'
    ensures Advances(s, s', who.organizationId)
    ensures s' == s || CaughtUp(s', who.organizationId, now)
    ensures !IsInternal(ReserveFrom(s, c, b, who, request, now, fails).1)
    ensures BindsReservation(s', who.organizationId, request, ReserveFrom(s, c, b, who, request, now, fails).1)
    ensures ReserveFrom(s, c, b, who, request, now, fails).1 == Refused(DimensionOverflow) ==>
              WindowAt(b, now).Ok? && Projected(c, b, WindowAt(b, now).value.index, request.requested, now).Err?
  {
    hide Inv, Evolves, Advances, Admit, BudgetState, ExceededDimensions;
    AdvancesIsReflexive(s, who.organizationId);
    s' := s;
    if !b.enabled {
      var next := DenialAdvances(c, who, request, BudgetSuspended, now);
      AdvancesIsTransitive(s, c, next, who.organizationId);
      s' := if fails then s else next;
    } else if 1 <= request.ttlSeconds <= Min(3600, b.reservationTtlSeconds) && WindowAt(b, now).Ok? {
      var window := WindowAt(b, now).value;
      var projection := Projected(c, b, window.index, request.requested, now);
      if projection.Ok? {
        s' := GrantKeeps(s, c, b, who, request, now, fails, window, projection.value);
      }
    }
  }

  /** The last part of a reserve call, from the projected totals on. */
  lemma GrantKeeps(s: SoundLedger, c: SoundLedger, b: Budget, who: Identity, request: Request, now: int, fails: bool,
                   window: Window, projected: Dims)
    returns (s': SoundLedger)
    requires Advances(s, c, who.organizationId) && Prepared(s, c, who.organizationId, now)
    requires request.ReserveRequest? && request.organizationId == who.organizationId && request.budgetId == b.budgetId
    requires BudgetKey(who.organizationId, b.budgetId) in c.budgets
    requires c.budgets[BudgetKey(who.organizationId, b.budgetId)] == b
    requires IdempotencyKey(who.organizationId, Reserved, request.key) !in c.idempotency
    requires b.enabled && 1 <= request.ttlSeconds <= Min(3600, b.reservationTtlSeconds)
    requires WindowAt(b, now) == Ok(window)
    requires Projected(c, b, window.index, request.requested, now) == Ok(projected)
    ensures ReserveFrom(s, c, b, who, request, now, fails).0 == s'
    ensures Advances(s, s', who.organizationId)
    ensures s' == s || CaughtUp(s', who.organizationId, now)
    ensures !IsInternal(ReserveFrom(s, c, b, who, request, now, fails).1)
    ensures BindsReservation(s', who.organizationId, request, ReserveFrom(s, c, b, who, request, now, fails).1)
    ensures ReserveFrom(s, c, b, who, request, now, fails).1 != Refused(DimensionOverflow)
  {
    hide Inv, Evolves, Advances, Admit, BudgetState, Projected, AdmitEffect, MayAdmit, ExceededDimensions, WindowAt;
    AdvancesIsReflexive(s, who.organizationId);
    var exceeded := ExceededDimensions(projected, b.limits);
    if exceeded != [] && b.enforcement == Hard {
      var next := DenialAdvances(c, who, request, BudgetExceeded, now);
      AdvancesIsTransitive(s, c, next, who.organizationId);
      s' := if fails then s else next;
    } else {
      MayReserve(c, b, who, request, now, window, projected);
      var next := AdmitAdvances(c, b, who, NewReservation(b, who, request, window, exceeded, now));
      BudgetStateIsSound(next, b, window.index);
      AdvancesIsTransitive(s, c, next, who.organizationId);
      var r := NewReservation(b, who, request, window, exceeded, now);
      AdmittedIsBound(c, who, r, next);
      MemberIsOk(next, r);
      CaughtUpAfterAdmitting(c, who, r, next, who.organizationId, now);
      s' := if fails then s else next;
    }
  }

  /** A reserve key that is bound leads to its reservation. */
  lemma ReplayReserveIsSound(c: SoundLedger, organizationId: string, key: string, request: Request)
    requires IdempotencyKey(organizationId, Reserved, key) in c.idempotency
    ensures var binding := c.idempotency[IdempotencyKey(organizationId, Reserved, key)];
            var response := ReplayReserve(c, binding, organizationId, request);
            if binding.request != request then response == Refused(IdempotencyConflict)
            else
              && response.ReservationShown?
              && response.reservation.reservationId == binding.id
              && response.reservation in c.reservations
  {
    var k := IdempotencyKey(organizationId, Reserved, key);
    assert BindingOk(c, k, c.idempotency[k]);
    var r := FindReservation(c.reservations, c.idempotency[k].id).value;
    assert ReservationOk(c, r);
    BudgetStateIsSound(c, c.budgets[BudgetKey(organizationId, r.budgetId)], r.window.index);
  }

  /** A transition key that is bound leads to the transition it was bound to, also when the
      candidate has expired other reservations since. */
  lemma ReplayTransitionIsSound(s: SoundLedger, c: SoundLedger, organizationId: string, target: ReservationState,
                                key: string,
                                request: Request)
    requires target == Committed || target == Released
    requires IdempotencyKey(organizationId, target, key) in s.idempotency
    requires c.idempotency == s.idempotency && s.transitions <= c.transitions
    ensures var binding := s.idempotency[IdempotencyKey(organizationId, target, key)];
            var response := ReplayTransition(c, binding, request);
            if binding.request != request then response == Refused(IdempotencyConflict)
            else response.TransitionShown? && FindTransition(s.transitions, binding.id) == Some(response.transition)
  {
    hide Inv, FindTransition;
    var k := IdempotencyKey(organizationId, target, key);
    BindingIsSound(s, k);
    FindTransitionExtended(s.transitions, c.transitions, s.idempotency[k].id);
  }

  lemma BindingIsSound(s: SoundLedger, k: IdempotencyKey)
    requires k in s.idempotency
    ensures BindingOk(s, k, s.idempotency[k])
  {
    assert KeysOk(s);
  }

  lemma SettledIsFound(c: SoundLedger, r: Reservation, t: Transition, subject: Subject, next: Ledger)
    requires MaySettle(c, r, t) && t.keyDigest.OfKey? && SettleEffect(c, r, t, subject, next)
    ensures TransitionKey(t) in next.idempotency
    ensures next.idempotency[TransitionKey(t)] == Binding(t.request, t.transitionId)
    ensures FindTransition(next.transitions, t.transitionId) == Some(t)
  {
    NoSuchTransition(c, t);
    FindTransitionAppended(c.transitions, t, t.transitionId);
  }

  lemma AdmittedIsBound(c: Ledger, who: Identity, r: Reservation, next: Ledger)
    requires AdmitEffect(c, who, r, next)
    ensures ReserveKey(r) in next.idempotency
    ensures next.idempotency[ReserveKey(r)] == Binding(r.request, r.reservationId)
    ensures r in next.reservations
  {
  }

  lemma ReserveKeeps(s: SoundLedger, who: Identity, terms: ReserveTerms, now: int, fails: bool)
    returns (s': SoundLedger)
    ensures ReserveStep(s, who, terms, now, fails).0 == s'
    ensures Advances(s, s', who.organizationId)
    ensures s' == s || CaughtUp(s', who.organizationId, now)
    ensures !IsInternal(ReserveStep(s, who, terms, now, fails).1)
    ensures Normalized(terms.requested, RequestedInvalid, true).Ok? ==>
              BindsReservation(s', who.organizationId,
                               ReserveRequestOf(who, terms, Normalized(terms.requested, RequestedInvalid, true).value),
                               ReserveStep(s, who, terms, now, fails).1)
    ensures Normalized(terms.requested, RequestedInvalid, true).Err? ==>
              !ReserveStep(s, who, terms, now, fails).1.ReservationShown?
  {
    hide Inv, Evolves, Advances, Prepare, Normalized, ReserveFrom, ReplayReserve;
    AdvancesIsReflexive(s, who.organizationId);
    s' := s;
    var amounts := Normalized(terms.requested, RequestedInvalid, true);
    var c := PrepareKeeps(s, who.organizationId, now);
    if amounts.Ok? && Prepare(s, who.organizationId, now).Ok? {
      var request := ReserveRequestOf(who, terms, amounts.value);
      if IdempotencyKey(who.organizationId, Reserved, terms.key) in c.idempotency {
        ReplayReserveIsSound(c, who.organizationId, terms.key, request);
      } else {
        var b := FindBudget(c, who.organizationId, terms.budgetId, terms.budgetDigest, terms.scopeType, terms.scopeId);
        if b.Ok? {
          FoundBudget(c, who.organizationId, terms.budgetId);
          s' := ReserveFromKeeps(s, c, b.value, who, request, now, fails);
        }
      }
    }
  }

  lemma MayTransition(c: Ledger, r: Reservation, request: Request, now: int)
    requires ReservationOk(c, r)
    requires request.TransitionRequest? && (request.target == Committed || request.target == Released)
    requires r in c.reservations && r.state == Reserved && r.organizationId == request.organizationId
    requires r.reservationId == request.reservationId
    requires request.target == Released ==> request.observed == Zero()
    requires request.target == Committed ==> Le(request.observed, r.requested)
    requires r.organizationId in c.lastClock && c.lastClock[r.organizationId] == now
    requires !IsDue(r, r.organizationId, now)
    requires IdempotencyKey(request.organizationId, request.target, request.key) !in c.idempotency
    ensures MaySettle(c, r, TransitionOf(request, now))
  {
  }

  lemma TransitionFromKeeps(s: SoundLedger, c: SoundLedger, who: Identity, request: Request, now: int, fails: bool)
    returns (s': SoundLedger)
    requires Advances(s, c, who.organizationId) && Prepared(s, c, who.organizationId, now)
    requires request.TransitionRequest? && (request.target == Committed || request.target == Released)
    requires request.organizationId == who.organizationId
    requires request.target == Released ==> request.observed == Zero()
    requires IdempotencyKey(who.organizationId, request.target, request.key) !in c.idempotency
    ensures TransitionFrom(s, c, who, request, now, fails).0 == s'
    ensures Advances(s, s', who.organizationId)
    ensures s' == s || CaughtUp(s', who.organizationId, now)
    ensures !IsInternal(TransitionFrom(s, c, who, request, now, fails).1)
    ensures TransitionFrom(s, c, who, request, now, fails).1 != Refused(DimensionOverflow)
    ensures BindsTransition(s', who.organizationId, request, TransitionFrom(s, c, who, request, now, fails).1)
  {
    hide Inv, Evolves, Advances, Settle, FindReservation, FindTransition, SettleEffect, MaySettle;
    AdvancesIsReflexive(s, who.organizationId);
    s' := s;
    var r := FindReservation(c.reservations, request.reservationId);
    if r.Some? && r.value.organizationId == who.organizationId && r.value.state == Reserved &&
       (request.target == Committed ==> Le(request.observed, r.value.requested))
    {
      MemberIsOk(c, r.value);
      MayTransition(c, r.value, request, now);
      var next := SettleAdvances(c, r.value, TransitionOf(request, now), Caller(who.subjectId));
      AdvancesIsTransitive(s, c, next, who.organizationId);
      SettledIsFound(c, r.value, TransitionOf(request, now), Caller(who.subjectId), next);
      CaughtUpAfterSettling(c, r.value, TransitionOf(request, now), Caller(who.subjectId), next, who.organizationId,
                            now);
      s' := if fails then s else next;
    }
  }

  lemma TransitionKeeps(s: SoundLedger, who: Identity, reservationId: Id, key: string, observed: Dims,
                        target: ReservationState, reason: string, now: int, fails: bool)
    returns (s': SoundLedger)
    requires target == Committed || (target == Released && observed == Zero())
    ensures TransitionStep(s, who, reservationId, key, observed, target, reason, now, fails).0 == s'
    ensures Advances(s, s', who.organizationId)
    ensures s' == s || CaughtUp(s', who.organizationId, now)
    ensures !IsInternal(TransitionStep(s, who, reservationId, key, observed, target, reason, now, fails).1)
    ensures TransitionStep(s, who, reservationId, key, observed, target, reason, now,
                           fails).1 != Refused(DimensionOverflow)
    ensures BindsTransition(s', who.organizationId,
                            TransitionRequest(who.organizationId, reservationId, target, key, observed, reason),
                            TransitionStep(s, who, reservationId, key, observed, target, reason, now, fails).1)
  {
    hide Inv, FindTransition, ReplayTransition, TransitionFrom, Prepare;
    s' := s;
    var request := TransitionRequest(who.organizationId, reservationId, target, key, observed, reason);
    var c := PrepareKeeps(s, who.organizationId, now);
    if Prepare(s, who.organizationId, now).Ok? {
      if IdempotencyKey(who.organizationId, target, key) in c.idempotency {
        ReplayTransitionIsSound(s, c, who.organizationId, target, key, request);
      } else {
        s' := TransitionFromKeeps(s, c, who, request, now, fails);
      }
    }
  }

  lemma EvaluateKeeps(s: SoundLedger, who: Identity, budgetId: string, budgetDigest: string, scopeType: string,
                      scopeId: string, requested: map<string, int>, now: int, fails: bool)
    returns (s': SoundLedger)
    ensures EvaluateStep(s, who, budgetId, budgetDigest, scopeType, scopeId, requested, now, fails).0 == s'
    ensures Advances(s, s', who.organizationId)
    ensures s' == s || CaughtUp(s', who.organizationId, now)
    ensures !IsInternal(EvaluateStep(s, who, budgetId, budgetDigest, scopeType, scopeId, requested, now, fails).1)
  {
    hide Inv, Evolves, Advances, BudgetState, MarkReconciled, Prepare, Normalized, EvaluationOf, WindowAt;
    AdvancesIsReflexive(s, who.organizationId);
    s' := s;
    var c := PrepareKeeps(s, who.organizationId, now);
    var amounts := Normalized(requested, RequestedInvalid, true);
    var b := FindBudget(c, who.organizationId, budgetId, budgetDigest, scopeType, scopeId);
    if amounts.Ok? && Prepare(s, who.organizationId, now).Ok? && b.Ok? && WindowAt(b.value, now).Ok? {
      var window := WindowAt(b.value, now).value;
      BudgetStateIsSound(c, b.value, window.index);
      if EvaluationOf(c, b.value, window, amounts.value, now).Ok? && c != s {
        FoundBudget(c, who.organizationId, budgetId);
        var next := MarkAdvances(c, b.value, window.index);
        AdvancesIsTransitive(s, c, next, who.organizationId);
        s' := if fails then s else next;
      }
    }
  }

  lemma RecomputationIsSound(s: SoundLedger, b: Budget, index: nat, now: int)
    ensures Recomputed(s, b, index, now).Ok?
    ensures StatusOf(Recomputed(s, b, index, now).value, AggregateAt(s, b, index, now)) == Match
  {
    RecomputationAgrees(s, b, index, now);
  }

  lemma ReconcileKeeps(s: SoundLedger, who: Identity, budgetId: string, now: int, fails: bool) returns (s': SoundLedger)
    ensures ReconcileStep(s, who, budgetId, now, fails).0 == s'
    ensures Advances(s, s', who.organizationId)
    ensures s' == s || CaughtUp(s', who.organizationId, now)
    ensures !IsInternal(ReconcileStep(s, who, budgetId, now, fails).1)
    ensures ReconcileStep(s, who, budgetId, now, fails).1 != Refused(DimensionOverflow)
    ensures ReconcileStep(s, who, budgetId, now, fails).1.ReconciliationShown? ==>
              ReconcileStep(s, who, budgetId, now, fails).1.reconciliation.status == Match
  {
    hide Inv, Evolves, Advances, Prepare, Recomputed, WindowAt;
    AdvancesIsReflexive(s, who.organizationId);
    s' := s;
    var c := PrepareKeeps(s, who.organizationId, now);
    if Prepare(s, who.organizationId, now).Ok? && BudgetKey(who.organizationId, budgetId) in c.budgets {
      var b := c.budgets[BudgetKey(who.organizationId, budgetId)];
      var window := WindowAt(b, now);
      if window.Ok? {
        FoundBudget(c, who.organizationId, budgetId);
        RecomputationIsSound(c, b, window.value.index, now);
        var finding := ReconcileFrom(s, c, b, who, budgetId, now, false).1.reconciliation;
        var next := ReconciliationAdvances(c, KeyOf(b, window.value.index), finding);
        AdvancesIsTransitive(s, c, next, who.organizationId);
        s' := if fails then s else next;
      }
    }
  }

  lemma RetentionKeeps(s: SoundLedger, who: Identity, budgetId: string, now: int, fails: bool) returns (s': SoundLedger)
    ensures RetentionStep(s, who, budgetId, now, fails).0 == s'
    ensures Advances(s, s', who.organizationId)
    ensures !IsInternal(RetentionStep(s, who, budgetId, now, fails).1)
  {
    hide Inv, Advances, WindowAt;
    AdvancesIsReflexive(s, who.organizationId);
    s' := s;
    if AdvanceClock(s, who.organizationId, now).Ok? {
      var c := TickAdvances(s, who.organizationId, now);
      if BudgetKey(who.organizationId, budgetId) in c.budgets &&
         WindowAt(c.budgets[BudgetKey(who.organizationId, budgetId)], now).Ok?
      {
        var next := RetentionAdvances(c, RetentionStep(s, who, budgetId, now, false).1.retention);
        AdvancesIsTransitive(s, c, next, who.organizationId);
        s' := if fails then s else next;
      }
    }
  }

  lemma AddBudgetStepKeeps(s: SoundLedger, b: Budget, fails: bool) returns (s': SoundLedger)
    ensures AddBudgetStep(s, b, fails).0 == s'
    ensures Advances(s, s', b.organizationId)
    ensures !IsInternal(AddBudgetStep(s, b, fails).1)
  {
    hide Inv, Evolves, Elsewhere;
    AdvancesIsReflexive(s, b.organizationId);
    s' := s;
    var key := BudgetKey(b.organizationId, b.budgetId);
    if key !in s.budgets && !fails {
      BudgetElsewhere(s, b);
      AddBudgetKeeps(s, b, s.(budgets := s.budgets[key := b]));
      s' := s.(budgets := s.budgets[key := b]);
    }
  }

  lemma CommitKeeps(s: SoundLedger, who: Identity, reservationId: Id, key: string, observed: map<string, int>, now: int,
                    fails: bool)
    returns (s': SoundLedger)
    ensures CommitStep(s, who, reservationId, key, observed, now, fails).0 == s'
    ensures Advances(s, s', who.organizationId)
    ensures s' == s || CaughtUp(s', who.organizationId, now)
    ensures !IsInternal(CommitStep(s, who, reservationId, key, observed, now, fails).1)
    ensures CommitStep(s, who, reservationId, key, observed, now, fails).1 != Refused(DimensionOverflow)
  {
    hide Inv, Advances, TransitionStep;
    AdvancesIsReflexive(s, who.organizationId);
    s' := s;
    var amounts := Normalized(observed, ObservedInvalid, false);
    if amounts.Ok? {
      s' := TransitionKeeps(s, who, reservationId, key, amounts.value, Committed, "USAGE_COMMITTED", now, fails);
    }
  }

  /** The operations that run the expiry loop. */
  predicate Expires(op: Op) {
    op.Reserve? || op.Commit? || op.Release? || op.Evaluate? || op.Reconcile?
  }

  /** The tenant on whose behalf an operation runs. */
  function TenantOf(op: Op): string {
    match op
    case AddBudget(b) => b.organizationId
    case _ => op.who.organizationId
  }

  lemma StepKeeps(s: SoundLedger, e: Event) returns (s': SoundLedger)
    ensures Step(s, e).0 == s'
    ensures Evolves(s, s')
    ensures Elsewhere(s, s', TenantOf(e.op))
    ensures Expires(e.op) ==> s' == s || CaughtUp(s', e.op.who.organizationId, e.op.now)
    ensures !IsInternal(Step(s, e).1)
  {
    hide Inv, Evolves, Elsewhere, AddBudgetStep, ReserveStep, CommitStep, TransitionStep, EvaluateStep, ReconcileStep,
        RetentionStep;
    match e.op
    case AddBudget(b) => s' := AddBudgetStepKeeps(s, b, e.storeFails);
    case Reserve(who, terms, now) => s' := ReserveKeeps(s, who, terms, now, e.storeFails);
    case Commit(who, id, key, observed, now) => s' := CommitKeeps(s, who, id, key, observed, now, e.storeFails);
    case Release(who, id, key, reason, now) =>
      s' := TransitionKeeps(s, who, id, key, Zero(), Released, reason, now, e.storeFails);
    case Evaluate(who, budgetId, digest, scopeType, scopeId, requested, now) =>
      s' := EvaluateKeeps(s, who, budgetId, digest, scopeType, scopeId, requested, now, e.storeFails);
    case Reconcile(who, budgetId, now) => s' := ReconcileKeeps(s, who, budgetId, now, e.storeFails);
    case RetentionDue(who, budgetId, now) => s' := RetentionKeeps(s, who, budgetId, now, e.storeFails);
  }

  /** Every run from a sound ledger is sound, and extends it. */
  lemma {:induction false} RunKeeps(s: SoundLedger, es: seq<Event>) returns (s': SoundLedger)
    ensures Run(s, es) == s'
    ensures Evolves(s, s')
  {
    hide Inv, Step, Elsewhere;
    if es == [] {
      s' := s;
    } else {
      var before := RunKeeps(s, es[..|es| - 1]);
      s' := StepKeeps(before, es[|es| - 1]);
      EvolvesIsTransitive(s, before, s');
    }
  }

  /** Every reachable ledger is sound. */
  lemma Reach(es: seq<Event>) returns (s: SoundLedger)
    ensures Run(EMPTY, es) == s
  {
    s := RunKeeps(EMPTY, es);
  }
}
