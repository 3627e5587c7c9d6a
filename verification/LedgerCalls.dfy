/** What one call of a run has done when it was granted, and when it was refused. */
module LedgerCalls {
  import opened Results
  import opened Dimensions
  import opened UsageModels
  import opened LedgerSpec
  import opened LedgerInvariant
  import opened LedgerSettlement
  import opened LedgerAdmission
  import opened LedgerRuns
  import opened LedgerRetries
  import opened LedgerExpiry
  import opened LedgerAnswers
  import opened TenantSlices

  /* ---------- What a granted reservation has written ---------- */

  /** The books that no grant and no settlement touches. */
  ghost predicate SameFrame(c: Ledger, s': Ledger) {
    && s'.budgets == c.budgets
    && s'.lastClock == c.lastClock
    && s'.reconciliations == c.reconciliations
    && s'.retentions == c.retentions
  }

  ghost predicate Announces(c: Ledger, s': Ledger, event: OutboxEvent) {
    && s'.outbox == c.outbox + [event]
    && s'.audit == c.audit + [Emitted(event)]
  }

  /** `s'` is `c` with reservation `r` added, its key bound and one event announcing it. */
  ghost predicate Adds(c: Ledger, s': Ledger, r: Reservation, who: Identity, now: int) {
    && SameFrame(c, s')
    && s'.transitions == c.transitions
    && s'.usageEntries == c.usageEntries
    && s'.reservations == c.reservations + [r]
    && s'.idempotency ==
       c.idempotency[IdempotencyKey(who.organizationId, Reserved, r.key) := Binding(r.request, r.reservationId)]
    && Announces(c, s', OutboxEvent(who.organizationId, Caller(who.subjectId), UsageReserved, r.reservationId,
                                    r.request, now))
  }

  /** Exactly the reserved totals of the window of `k` have grown, by what was asked for. */
  ghost predicate HoldsMore(s: Ledger, s': Ledger, k: AggregateKey, requested: map<string, int>, now: int) {
    forall x: AggregateKey, d: nat | d < COUNT && x.organizationId == k.organizationId ::
      && CommittedAt(s', x)[d] == UsedIn(s.usageEntries, x, d)
      && ReservedAt(s', x)[d] == LiveIn(s.reservations, x, d, now) + if x == k then AskedIn(requested, d) else 0
  }

  /** A reserve call under a new key that shows a reservation has moved the clock, expired what was
      overdue, and added exactly that reservation, which is what was asked for. */
  lemma GrantIsTheRequest(es: seq<Event>, who: Identity, terms: ReserveTerms, now: int, fails: bool)
    returns (c: Ledger)
    requires IdempotencyKey(who.organizationId, Reserved, terms.key) !in Run(EMPTY, es).idempotency
    requires Step(Run(EMPTY, es), Event(Reserve(who, terms, now), fails)).1.ReservationShown?
    ensures var s := Run(EMPTY, es);
            var (s', answer) := Step(s, Event(Reserve(who, terms, now), fails));
            && OnlyExpires(s, c, who.organizationId, now)
            && Adds(c, s', answer.reservation, who, now)
            && BudgetKey(who.organizationId, terms.budgetId) in s.budgets
            && var b := s.budgets[BudgetKey(who.organizationId, terms.budgetId)];
               && b.windowEpoch <= now
               && IsGranted(answer.reservation, b, who, terms, Demand(s, KeyAt(b, now), terms.requested, now), now)
               && HoldsMore(s, s', KeyAt(b, now), terms.requested, now)
               && TouchesAlso(s, s', who.organizationId, KeyAt(b, now), now)
  {
    hide Inv, Evolves, ReserveStep, OnlyExpires, CaughtUp, AnswersReserve, Adds, HoldsMore, IsGranted, Demand, Stamps,
        KeyAt, TouchesAlso, TouchesOverdue;
    var s := Reach(es);
    ReserveIsExact(es, who, terms, now, fails);
    var answer := ReserveStep(s, who, terms, now, fails).1;
    GrantIsFound(s, who, terms, now, fails, answer);
    var candidate := Candidate(s, who.organizationId, now);
    c := candidate;
    var s' := GrantAdds(s, candidate, who, terms, now, fails);
    FoundBudget(candidate, who.organizationId, terms.budgetId);
    var b := s.budgets[BudgetKey(who.organizationId, terms.budgetId)];
    AddedHoldsMore(s, c, s', answer.reservation, b, who, terms, now);
    GrantedKey(answer.reservation, b, who, terms, now);
    PreparationTouches(s, who.organizationId, now);
    AlsoTouched(s, c, s', who.organizationId, KeyAt(b, now), now);
  }

  lemma GrantedKey(r: Reservation, b: Budget, who: Identity, terms: ReserveTerms, now: int)
    requires b.windowEpoch <= now && b.organizationId == who.organizationId && b.budgetId == terms.budgetId
    requires exists total: seq<int> :: IsGranted(r, b, who, terms, total, now)
    ensures ReservationKey(r) == KeyAt(b, now)
  {
  }

  /** Besides the windows of the tenant that lost a reservation by expiry, exactly the window `k` has new
      totals as of `now`, and is marked as matching. */
  ghost predicate TouchesAlso(s: Ledger, s': Ledger, o: string, k: AggregateKey, now: int) {
    var touched := OverdueWindows(s.reservations, o, now) + {k};
    Touches(s, s', touched, touched, now)
  }

  lemma AlsoTouched(s: Ledger, c: Ledger, s': Ledger, o: string, k: AggregateKey, now: int)
    requires TouchesOverdue(s, c, s.reservations, o, now) && Stamps(c, s', k, now)
    ensures TouchesAlso(s, s', o, k, now)
  {
    StampedToo(s, c, s', o, now, k);
  }

  /** A shown reservation has passed every check. */
  lemma GrantIsFound(s: Ledger, who: Identity, terms: ReserveTerms, now: int, fails: bool, answer: Response)
    requires AnswersReserve(s, who, terms, now, fails, answer) && answer.ReservationShown?
    ensures Acceptable(terms.requested, true) && !GoesBack(s, who.organizationId, now)
    ensures BudgetKey(who.organizationId, terms.budgetId) in s.budgets
    ensures var b := s.budgets[BudgetKey(who.organizationId, terms.budgetId)];
            && b.windowEpoch <= now
            && IsGranted(answer.reservation, b, who, terms, Demand(s, KeyAt(b, now), terms.requested, now), now)
  {
    hide Acceptable, IsGranted, Demand, KeyAt, IsState, Overflows, SomeOver;
  }

  lemma GrantAdds(s: SoundLedger, c: SoundLedger, who: Identity, terms: ReserveTerms, now: int, fails: bool)
    returns (s': SoundLedger)
    requires Prepare(s, who.organizationId, now) == Ok(c) && CaughtUp(c, who.organizationId, now)
    requires IdempotencyKey(who.organizationId, Reserved, terms.key) !in c.idempotency
    requires ReserveStep(s, who, terms, now, fails).1.ReservationShown?
    ensures s' == ReserveStep(s, who, terms, now, fails).0
    ensures Adds(c, s', ReserveStep(s, who, terms, now, fails).1.reservation, who, now)
    ensures Stamps(c, s', ReservationKey(ReserveStep(s, who, terms, now, fails).1.reservation), now)
    ensures CaughtUp(s', who.organizationId, now)
  {
    hide Inv, Normalized, ReserveFrom, Prepare, Adds, CaughtUp, Advances, Stamps;
    s' := ReserveKeeps(s, who, terms, now, fails);
    var amounts := Normalized(terms.requested, RequestedInvalid, true).value;
    var b :=
        FindBudget(c, who.organizationId, terms.budgetId, terms.budgetDigest, terms.scopeType, terms.scopeId).value;
    FoundBudget(c, who.organizationId, terms.budgetId);
    GrantFromAdds(s, c, b, who, ReserveRequestOf(who, terms, amounts), now, fails);
  }

  lemma GrantFromAdds(s: Ledger, c: SoundLedger, b: Budget, who: Identity, request: Request, now: int, fails: bool)
    requires request.ReserveRequest? && request.organizationId == who.organizationId && request.budgetId == b.budgetId
    requires BudgetKey(who.organizationId, b.budgetId) in c.budgets
    requires c.budgets[BudgetKey(who.organizationId, b.budgetId)] == b
    requires CaughtUp(c, who.organizationId, now)
    requires IdempotencyKey(who.organizationId, Reserved, request.key) !in c.idempotency
    requires ReserveFrom(s, c, b, who, request, now, fails).1.ReservationShown?
    ensures var (s', answer) := ReserveFrom(s, c, b, who, request, now, fails);
            && Adds(c, s', answer.reservation, who, now)
            && Stamps(c, s', ReservationKey(answer.reservation), now)
            && CaughtUp(s', who.organizationId, now)
  {
    hide Inv, Admit, Projected, ExceededDimensions, BudgetState, MayAdmit, WindowAt, AdmitEffect, CaughtUp, Adds,
        Stamps;
    var window := WindowAt(b, now).value;
    var projected := Projected(c, b, window.index, request.requested, now).value;
    ClockStands(c, who.organizationId, now);
    MayReserve(c, b, who, request, now, window, projected);
    var r := NewReservation(b, who, request, window, ExceededDimensions(projected, b.limits), now);
    var next := AdmitKeeps(c, b, who, r);
    AddedLives(c, b, who, r);
    CaughtUpAfterAdmitting(c, who, r, next, who.organizationId, now);
    AdmittingAdds(c, who, r, next);
    AdmittingStamps(c, b, who, r, next);
  }

  lemma AdmittingStamps(c: Ledger, b: Budget, who: Identity, r: Reservation, next: Ledger)
    requires Admit(c, b, who, r) == Ok(next) && AdmitEffect(c, who, r, next)
    requires b.organizationId == r.organizationId && b.budgetId == r.budgetId
    requires next.reconciled == c.reconciled[ReservationKey(r) := Match]
    ensures Stamps(c, next, ReservationKey(r), r.createdAt)
  {
    hide PutReservation, Recomputed, StatusOf;
  }

  lemma AddedLives(c: Ledger, b: Budget, who: Identity, r: Reservation)
    requires MayAdmit(c, b, who, r)
    ensures r.createdAt < r.expiresAt && r.organizationId == who.organizationId
  {
  }

  lemma AdmittingAdds(c: Ledger, who: Identity, r: Reservation, next: Ledger)
    requires AdmitEffect(c, who, r, next) && r.organizationId == who.organizationId
    ensures Adds(c, next, r, who, r.createdAt)
  {
  }

  lemma ClockStands(c: Ledger, organizationId: string, now: int)
    requires CaughtUp(c, organizationId, now)
    ensures organizationId in c.lastClock && c.lastClock[organizationId] == now
  {
  }

  /** In a ledger that is caught up the stored totals are what is used and what is live. */
  lemma CaughtUpTotals(s: SoundLedger, k: AggregateKey, d: nat, now: int)
    requires d < COUNT && CaughtUp(s, k.organizationId, now)
    ensures CommittedAt(s, k)[d] == UsedIn(s.usageEntries, k, d)
    ensures ReservedAt(s, k)[d] == LiveIn(s.reservations, k, d, now)
  {
    hide Inv, OnlyExpires, CaughtUp, Prepare;
    PrepareIsIdle(s, k.organizationId, now);
    ClockStands(s, k.organizationId, now);
    PreparationIsExact(s, k.organizationId, now);
    PreparedTotals(s, s, k, d, now);
  }

  lemma AddedHoldsMore(s: Ledger, c: Ledger, s': SoundLedger, r: Reservation, b: Budget, who: Identity,
                       terms: ReserveTerms, now: int)
    requires OnlyExpires(s, c, who.organizationId, now) && Adds(c, s', r, who, now)
    requires CaughtUp(s', who.organizationId, now)
    requires b.organizationId == who.organizationId && b.budgetId == terms.budgetId && b.windowEpoch <= now
    requires IsGranted(r, b, who, terms, Demand(s, KeyAt(b, now), terms.requested, now), now)
    ensures HoldsMore(s, s', KeyAt(b, now), terms.requested, now)
  {
    hide Inv, OnlyExpires, CaughtUp, IsGranted, KeyAt, CommittedAt, ReservedAt, LiveIn, UsedIn, IsLive, AskedIn;
    GrantedIsLive(s', r, b, who, terms, Demand(s, KeyAt(b, now), terms.requested, now), now);
    forall x: AggregateKey, d: nat | d < COUNT && x.organizationId == who.organizationId
      ensures CommittedAt(s', x)[d] == UsedIn(s.usageEntries, x, d)
      ensures ReservedAt(s', x)[d] ==
              LiveIn(s.reservations, x, d, now) + if x == KeyAt(b, now) then AskedIn(terms.requested, d) else 0
    {
      CaughtUpTotals(s', x, d, now);
      ExpiryIsNeutral(s, c, x, d, now);
      LiveAppended(c.reservations, r, x, d, now);
    }
    KeyIsOf(b, now);
  }

  lemma KeyIsOf(b: Budget, now: int)
    requires b.windowEpoch <= now
    ensures KeyAt(b, now).organizationId == b.organizationId
  {
  }

  lemma GrantedIsLive(s': Ledger, r: Reservation, b: Budget, who: Identity, terms: ReserveTerms, total: seq<int>,
                      now: int)
    requires CaughtUp(s', who.organizationId, now) && r in s'.reservations
    requires b.organizationId == who.organizationId && b.budgetId == terms.budgetId && b.windowEpoch <= now
    requires IsGranted(r, b, who, terms, total, now)
    ensures forall x: AggregateKey :: IsLive(r, x, now) <==> x == KeyAt(b, now)
    ensures IsAsked(r.requested, terms.requested)
  {
    hide NamesThoseOver, IsAsked;
    assert !IsDue(r, who.organizationId, now);
  }

  /* ---------- What a shown transition has written ---------- */

  /** `s'` is `c` with its `i`-th reservation settled by transition `t`, the key of `t` bound, the usage
      `booked` and one event announcing it. */
  ghost predicate Closes(c: Ledger, s': Ledger, i: nat, t: Transition, booked: seq<UsageEntry>, event: OutboxEvent)
    requires i < |c.reservations| && t.keyDigest.OfKey?
  {
    && SameFrame(c, s')
    && s'.reservations == c.reservations[i := c.reservations[i].(state := t.state)]
    && s'.transitions == c.transitions + [t]
    && s'.usageEntries == c.usageEntries + booked
    && s'.idempotency ==
       c.idempotency[IdempotencyKey(t.organizationId, t.state, t.keyDigest.key) := Binding(t.request, t.transitionId)]
    && Announces(c, s', event)
  }

  /** Reservation `r` is the tenant's own, and still live. */
  ghost predicate IsLiveOwn(r: Reservation, o: string, id: Id, now: int) {
    IsOwn(r, o, id) && r.state == Reserved && now < r.expiresAt
  }

  /** The amounts `used` have been booked in the window of `r`, and what `r` held there is given back. */
  ghost predicate GivesBack(s: Ledger, s': Ledger, r: Reservation, used: seq<int>, now: int)
    requires |used| == COUNT
  {
    var k := AggregateKey(r.organizationId, r.budgetId, r.window.index);
    && TouchesAlso(s, s', r.organizationId, k, now)
    && forall x: AggregateKey, d: nat | d < COUNT && x.organizationId == r.organizationId ::
      && CommittedAt(s', x)[d] == UsedIn(s.usageEntries, x, d) + (if x == k then used[d] else 0)
      && ReservedAt(s', x)[d] + (if x == k then r.requested[d] else 0) == LiveIn(s.reservations, x, d, now)
  }

  /** The entry that books what `t` commits, on the budget, scope, operation and window of `r`. */
  function UsageOf(r: Reservation, t: Transition): UsageEntry {
    UsageEntry(UsageId(t.reservationId, t.transitionId, t.observed), r.organizationId, r.reservationId, r.budgetId,
               r.budgetDigest, r.scopeType, r.scopeId, r.operationId, t.observed, r.window.index, t.occurredAt)
  }

  /** A commit under a new key that shows a transition has moved the clock, expired what was overdue,
      settled one live reservation of the tenant that is large enough, and booked exactly the amounts
      it names, in one usage entry. */
  lemma CommitIsTheRequest(es: seq<Event>, who: Identity, id: Id, key: string, observed: map<string, int>, now: int,
                           fails: bool)
    returns (c: Ledger, i: nat)
    requires IdempotencyKey(who.organizationId, Committed, key) !in Run(EMPTY, es).idempotency
    requires Step(Run(EMPTY, es), Event(Commit(who, id, key, observed, now), fails)).1.TransitionShown?
    ensures var s := Run(EMPTY, es);
            var (s', answer) := Step(s, Event(Commit(who, id, key, observed, now), fails));
            var o, t := who.organizationId, answer.transition;
            && OnlyExpires(s, c, o, now)
            && i < |s.reservations| && IsLiveOwn(s.reservations[i], o, id, now)
            && !SomeOver(Asked(observed), s.reservations[i].requested)
            && IsTransitionOf(t, o, id, key, Committed, Asked(observed), "USAGE_COMMITTED", now)
            && Closes(c, s', i, t, [UsageOf(s.reservations[i], t)],
                      OutboxEvent(o, Caller(who.subjectId), UsageCommitted, UsageOf(s.reservations[i], t).usageEntryId,
                                  t.request, now))
            && GivesBack(s, s', s.reservations[i], Asked(observed), now)
  {
    hide Inv, Evolves, TransitionStep, Normalized, OnlyExpires, Closes, GivesBack, SomeOver;
    var s := Reach(es);
    AcceptedIsAsked(observed, ObservedInvalid, false);
    var amounts := Normalized(observed, ObservedInvalid, false).value;
    assert amounts == Asked(observed);
    c, i := TransitionCloses(s, who, id, key, amounts, Committed, "USAGE_COMMITTED", now, fails);
  }

  /** A release under a new key that shows a transition has moved the clock, expired what was overdue,
      and settled one live reservation of the tenant as released: it books no usage, and gives back
      what the reservation held. */
  lemma ReleaseIsTheRequest(es: seq<Event>, who: Identity, id: Id, key: string, reason: string, now: int, fails: bool)
    returns (c: Ledger, i: nat)
    requires IdempotencyKey(who.organizationId, Released, key) !in Run(EMPTY, es).idempotency
    requires Step(Run(EMPTY, es), Event(Release(who, id, key, reason, now), fails)).1.TransitionShown?
    ensures var s := Run(EMPTY, es);
            var (s', answer) := Step(s, Event(Release(who, id, key, reason, now), fails));
            var o, t := who.organizationId, answer.transition;
            && OnlyExpires(s, c, o, now)
            && i < |s.reservations| && IsLiveOwn(s.reservations[i], o, id, now)
            && IsTransitionOf(t, o, id, key, Released, NOTHING, reason, now)
            && Closes(c, s', i, t, [], OutboxEvent(o, Caller(who.subjectId), UsageReleased, t.transitionId, t.request,
                                                   now))
            && GivesBack(s, s', s.reservations[i], NOTHING, now)
  {
    hide Inv, Evolves, TransitionStep, OnlyExpires, Closes, GivesBack, SomeOver;
    var s := Reach(es);
    assert Zero() == NOTHING;
    c, i := TransitionCloses(s, who, id, key, Zero(), Released, reason, now, fails);
  }

  /** The event of a commit or release. */
  function NewsOf(r: Reservation, t: Transition, who: Identity, now: int): OutboxEvent {
    if t.state == Committed
    then OutboxEvent(who.organizationId, Caller(who.subjectId), UsageCommitted, UsageOf(r, t).usageEntryId, t.request,
                     now)
    else OutboxEvent(who.organizationId, Caller(who.subjectId), UsageReleased, t.transitionId, t.request, now)
  }

  lemma TransitionCloses(s: SoundLedger, who: Identity, id: Id, key: string, amounts: Dims, target: ReservationState,
                         reason: string, now: int, fails: bool)
    returns (c: Ledger, i: nat)
    requires target == Committed || (target == Released && amounts == Zero())
    requires IdempotencyKey(who.organizationId, target, key) !in s.idempotency
    requires TransitionStep(s, who, id, key, amounts, target, reason, now, fails).1.TransitionShown?
    ensures var (s', answer) := TransitionStep(s, who, id, key, amounts, target, reason, now, fails);
            var o, t := who.organizationId, answer.transition;
            && OnlyExpires(s, c, o, now)
            && i < |s.reservations| && IsLiveOwn(s.reservations[i], o, id, now)
            && (target == Committed ==> !SomeOver(amounts, s.reservations[i].requested))
            && IsTransitionOf(t, o, id, key, target, amounts, reason, now)
            && Closes(c, s', i, t, if target == Committed then [UsageOf(s.reservations[i], t)] else [],
                      NewsOf(s.reservations[i], t, who, now))
            && GivesBack(s, s', s.reservations[i], amounts, now)
  {
    hide Inv, OnlyExpires, CaughtUp, TransitionStep, AnswersFor, Closes, GivesBack, NewsOf, UsageOf, Advances, Stamps,
        TouchesOverdue, TouchesAlso;
    var o := who.organizationId;
    var s' := TransitionKeeps(s, who, id, key, amounts, target, reason, now, fails);
    TransitionIsExact(s, who, id, key, amounts, target, reason, now, fails);
    var r :| r in s.reservations && IsOwn(r, o, id);
    i :| 0 <= i < |s.reservations| && s.reservations[i] == r;
    var t := TransitionStep(s, who, id, key, amounts, target, reason, now, fails).1.transition;
    ShownIsLive(r, key, target, amounts, reason, now, fails, TransitionShown(t));
    var candidate := Candidate(s, o, now);
    c := candidate;
    StepCloses(s, candidate, who, i, key, amounts, target, reason, now, fails);
    PreparationTouches(s, o, now);
    AlsoTouched(s, c, s', o, ReservationKey(r), now);
    ClosingGivesBack(s, c, s', i, t, NewsOf(r, t, who, now), now);
  }

  lemma ShownIsLive(r: Reservation, key: string, target: ReservationState, amounts: Dims, reason: string, now: int,
                    fails: bool, answer: Response)
    requires AnswersFor(r, key, target, amounts, reason, now, fails, answer) && answer.TransitionShown?
    ensures r.state == Reserved && now < r.expiresAt
    ensures target == Committed ==> !SomeOver(amounts, r.requested)
    ensures IsTransitionOf(answer.transition, r.organizationId, r.reservationId, key, target, amounts, reason, now)
  {
  }

  lemma StepCloses(s: SoundLedger, c: SoundLedger, who: Identity, i: nat, key: string, amounts: Dims,
                   target: ReservationState, reason: string, now: int, fails: bool)
    requires target == Committed || (target == Released && amounts == Zero())
    requires i < |s.reservations|
    requires IsLiveOwn(s.reservations[i], who.organizationId, s.reservations[i].reservationId, now)
    requires Prepare(s, who.organizationId, now) == Ok(c) && OnlyExpires(s, c, who.organizationId, now)
    requires CaughtUp(c, who.organizationId, now)
    requires IdempotencyKey(who.organizationId, target, key) !in c.idempotency
    requires target == Committed ==> !SomeOver(amounts, s.reservations[i].requested)
    requires TransitionStep(s, who, s.reservations[i].reservationId, key, amounts, target, reason, now, fails)
             .1.TransitionShown?
    ensures var (s', answer) :=
              TransitionStep(s, who, s.reservations[i].reservationId, key, amounts, target, reason, now, fails);
            var t := answer.transition;
            && |c.reservations| == |s.reservations| && t.keyDigest.OfKey?
            && Closes(c, s', i, t, if target == Committed then [UsageOf(s.reservations[i], t)] else [],
                      NewsOf(s.reservations[i], t, who, now))
            && Stamps(c, s', ReservationKey(s.reservations[i]), now)
            && CaughtUp(s', who.organizationId, now)
  {
    hide Inv, Prepare, FindReservation, Settle, SettleEffect, CaughtUp, Closes, NewsOf, UsageOf, MaySettle, Stamps;
    var r := s.reservations[i];
    assert c.reservations[i] == r;
    OwnIsFound(s, c, who.organizationId, r.reservationId, now, r);
    MemberIsOk(c, r);
    ClockStands(c, who.organizationId, now);
    var request := TransitionRequest(who.organizationId, r.reservationId, target, key, amounts, reason);
    var t := TransitionOf(request, now);
    MayTransition(c, r, request, now);
    var next := SettleKeeps(c, r, t, Caller(who.subjectId));
    CaughtUpAfterSettling(c, r, t, Caller(who.subjectId), next, who.organizationId, now);
    SettlingCloses(c, who, i, t, next, now);
    SettlingStamps(c, r, t, Caller(who.subjectId));
  }

  lemma SettlingCloses(c: Ledger, who: Identity, i: nat, t: Transition, next: Ledger, now: int)
    requires DistinctIds(c.reservations) && i < |c.reservations| && t.keyDigest.OfKey?
    requires t.state == Committed || t.state == Released
    requires t.reservationId == c.reservations[i].reservationId && t.organizationId == who.organizationId
    requires t.occurredAt == now
    requires SettleEffect(c, c.reservations[i], t, Caller(who.subjectId), next)
    ensures Closes(c, next, i, t, if t.state == Committed then [UsageOf(c.reservations[i], t)] else [],
                   NewsOf(c.reservations[i], t, who, now))
  {
    var r := c.reservations[i];
    forall j | 0 <= j < |c.reservations|
      ensures next.reservations[j] == if j == i then r.(state := t.state) else c.reservations[j]
    {
      assert c.reservations[j].reservationId == r.reservationId ==> j == i;
    }
  }

  lemma ClosingGivesBack(s: Ledger, c: Ledger, s': SoundLedger, i: nat, t: Transition, event: OutboxEvent, now: int)
    requires |c.reservations| == |s.reservations| && i < |s.reservations| && t.keyDigest.OfKey?
    requires t.state == Committed || (t.state == Released && t.observed == Zero())
    requires IsLiveOwn(s.reservations[i], s.reservations[i].organizationId, s.reservations[i].reservationId, now)
    requires OnlyExpires(s, c, s.reservations[i].organizationId, now)
    requires CaughtUp(s', s.reservations[i].organizationId, now)
    requires Closes(c, s', i, t, if t.state == Committed then [UsageOf(s.reservations[i], t)] else [], event)
    requires TouchesAlso(s, s', s.reservations[i].organizationId, ReservationKey(s.reservations[i]), now)
    ensures GivesBack(s, s', s.reservations[i], t.observed, now)
  {
    hide Inv, CaughtUp, CommittedAt, ReservedAt, LiveIn, UsedIn, LogsOnlyExpiries, TouchesAlso;
    var r := s.reservations[i];
    assert c.reservations[i] == r;
    forall x: AggregateKey, d: nat | d < COUNT && x.organizationId == r.organizationId
      ensures var here := x == AggregateKey(r.organizationId, r.budgetId, r.window.index);
              && CommittedAt(s', x)[d] == UsedIn(s.usageEntries, x, d) + (if here then t.observed[d] else 0)
              && ReservedAt(s', x)[d] + (if here then r.requested[d] else 0) == LiveIn(s.reservations, x, d, now)
    {
      CaughtUpTotals(s', x, d, now);
      ExpiryIsNeutral(s, c, x, d, now);
      LiveUpdated(c.reservations, i, t.state, x, d, now);
      UsedAppended(c.usageEntries, UsageOf(r, t), x, d);
      assert c.usageEntries + [] == c.usageEntries;
    }
  }

  /* ---------- Refusals ---------- */

  /** The two refusals that are published. */
  predicate IsDenial(response: Response) {
    response == Refused(BudgetSuspended) || response == Refused(BudgetExceeded)
  }

  /** `s'` is the caught-up ledger with one denial of this request more on its audit log, and nothing
      else. */
  ghost predicate OnlyDenies(s: Ledger, s': Ledger, who: Identity, terms: ReserveTerms, now: int, reason: Denial) {
    match Prepare(s, who.organizationId, now)
    case Err(_) => false
    case Ok(c) =>
      && s'.audit != []
      && s'.audit[|s'.audit| - 1].Denied?
      && var request := s'.audit[|s'.audit| - 1].request;
         && IsRequestOf(request, who, terms)
         && s' == c.(audit := c.audit + [Denied(who.organizationId, who.subjectId, request, reason, now)])
  }

  lemma ReserveRefusal(s: SoundLedger, who: Identity, terms: ReserveTerms, now: int, fails: bool)
    ensures var (s', response) := ReserveStep(s, who, terms, now, fails);
            && (response.Refused? && !IsDenial(response) ==> s' == s)
            && (IsDenial(response) ==> OnlyDenies(s, s', who, terms, now, response.code))
  {
    hide Inv, Evolves, Elsewhere, Prepare, Normalized, ReserveFrom, ReplayReserve;
    var c := PrepareKeeps(s, who.organizationId, now);
    var amounts := Normalized(terms.requested, RequestedInvalid, true);
    var b := FindBudget(c, who.organizationId, terms.budgetId, terms.budgetDigest, terms.scopeType, terms.scopeId);
    if amounts.Ok? && Prepare(s, who.organizationId, now).Ok? {
      var request := ReserveRequestOf(who, terms, amounts.value);
      if IdempotencyKey(who.organizationId, Reserved, terms.key) in c.idempotency {
        ReplayReserveIsSound(c, who.organizationId, terms.key, request);
      } else if b.Ok? {
        FoundBudget(c, who.organizationId, terms.budgetId);
        ReserveFromRefusal(s, c, b.value, who, request, now, fails);
        AcceptedIsAsked(terms.requested, RequestedInvalid, true);
      }
    }
  }

  lemma ReserveFromRefusal(s: Ledger, c: SoundLedger, b: Budget, who: Identity, request: Request, now: int, fails: bool)
    requires request.ReserveRequest? && request.organizationId == who.organizationId && request.budgetId == b.budgetId
    requires BudgetKey(who.organizationId, b.budgetId) in c.budgets
    requires c.budgets[BudgetKey(who.organizationId, b.budgetId)] == b
    requires CaughtUp(c, who.organizationId, now)
    requires IdempotencyKey(who.organizationId, Reserved, request.key) !in c.idempotency
    ensures var (s', response) := ReserveFrom(s, c, b, who, request, now, fails);
            && (response.Refused? && !IsDenial(response) ==> s' == s)
            && (IsDenial(response) ==> s' == WithDenial(c, who, request, response.code, now))
  {
    hide Inv, Evolves, Admit, BudgetState, Projected, AdmitEffect, MayAdmit, ExceededDimensions, WindowAt, CaughtUp;
    if b.enabled && 1 <= request.ttlSeconds <= Min(3600, b.reservationTtlSeconds) && WindowAt(b, now).Ok? {
      var window := WindowAt(b, now).value;
      var projected := Projected(c, b, window.index, request.requested, now);
      if projected.Ok? {
        var exceeded := ExceededDimensions(projected.value, b.limits);
        if exceeded == [] || b.enforcement != Hard {
          ClockStands(c, who.organizationId, now);
          MayReserve(c, b, who, request, now, window, projected.value);
          var next := AdmitKeeps(c, b, who, NewReservation(b, who, request, window, exceeded, now));
          BudgetStateIsSound(next, b, window.index);
        }
      }
    }
  }

  /** The outcome of a call that either publishes or leaves the ledger as it was, and denies nothing. */
  ghost predicate AllOrNothing(s: Ledger, outcome: (Ledger, Response)) {
    !IsDenial(outcome.1) && (outcome.1.Refused? ==> outcome.0 == s)
  }

  lemma TransitionRefusal(s: SoundLedger, who: Identity, reservationId: Id, key: string, observed: Dims,
                          target: ReservationState, reason: string, now: int, fails: bool)
    requires target == Committed || (target == Released && observed == Zero())
    ensures AllOrNothing(s, TransitionStep(s, who, reservationId, key, observed, target, reason, now, fails))
  {
    hide Inv, Evolves, Elsewhere, Prepare, FindReservation, FindTransition, Settle, SettleEffect, MaySettle;
    var request := TransitionRequest(who.organizationId, reservationId, target, key, observed, reason);
    var c := PrepareKeeps(s, who.organizationId, now);
    if Prepare(s, who.organizationId, now).Ok? && IdempotencyKey(who.organizationId, target, key) !in c.idempotency {
      var r := FindReservation(c.reservations, reservationId);
      if r.Some? && r.value.organizationId == who.organizationId && r.value.state == Reserved &&
         (target == Committed ==> Le(observed, r.value.requested))
      {
        MemberIsOk(c, r.value);
        MayTransition(c, r.value, request, now);
        var _ := SettleKeeps(c, r.value, TransitionOf(request, now), Caller(who.subjectId));
      }
    }
  }

  lemma EvaluateRefusal(s: SoundLedger, who: Identity, budgetId: string, budgetDigest: string, scopeType: string,
                        scopeId: string, requested: map<string, int>, now: int, fails: bool)
    ensures AllOrNothing(s, EvaluateStep(s, who, budgetId, budgetDigest, scopeType, scopeId, requested, now, fails))
  {
    hide Inv, Advances, Prepare, Normalized, EvaluationOf, MarkReconciled, WindowAt;
    var c := PrepareKeeps(s, who.organizationId, now);
    var b := FindBudget(c, who.organizationId, budgetId, budgetDigest, scopeType, scopeId);
    if b.Ok? && WindowAt(b.value, now).Ok? {
      var _ := MarkAdvances(c, b.value, WindowAt(b.value, now).value.index);
    }
  }

  lemma ReconcileRefusal(s: SoundLedger, who: Identity, budgetId: string, now: int, fails: bool)
    ensures AllOrNothing(s, ReconcileStep(s, who, budgetId, now, fails))
  {
    hide Inv, Advances, Prepare, Recomputed, WindowAt;
    var c := PrepareKeeps(s, who.organizationId, now);
    if BudgetKey(who.organizationId, budgetId) in c.budgets {
      var b := c.budgets[BudgetKey(who.organizationId, budgetId)];
      if WindowAt(b, now).Ok? {
        RecomputationIsSound(c, b, WindowAt(b, now).value.index, now);
      }
    }
  }

  lemma StepRefusal(s: SoundLedger, e: Event)
    ensures var (s', response) := Step(s, e);
            && (response.Refused? && !IsDenial(response) ==> s' == s)
            && (IsDenial(response) ==>
                  e.op.Reserve? && OnlyDenies(s, s', e.op.who, e.op.terms, e.op.now, response.code))
  {
    hide Inv, Evolves, Elsewhere, Prepare, ReserveStep, Normalized, TransitionStep, EvaluateStep, ReconcileStep,
        WindowAt, OnlyDenies;
    match e.op
    case Reserve(who, terms, now) => ReserveRefusal(s, who, terms, now, e.storeFails);
    case Commit(who, id, key, observed, now) =>
      var amounts := Normalized(observed, ObservedInvalid, false);
      if amounts.Ok? {
        TransitionRefusal(s, who, id, key, amounts.value, Committed, "USAGE_COMMITTED", now, e.storeFails);
      }
    case Release(who, id, key, reason, now) =>
      TransitionRefusal(s, who, id, key, Zero(), Released, reason, now, e.storeFails);
    case Evaluate(who, budgetId, digest, scopeType, scopeId, requested, now) =>
      EvaluateRefusal(s, who, budgetId, digest, scopeType, scopeId, requested, now, e.storeFails);
    case Reconcile(who, budgetId, now) => ReconcileRefusal(s, who, budgetId, now, e.storeFails);
    case _ =>
  }

  /** A refusal discards everything the call did, its clock and its expiries included -- with one
      exception: a suspended or exceeded budget, where a reserve call adds its denial to the audit
      log, and no event and no reservation. */
  lemma RefusalsChangeNothing(es: seq<Event>, e: Event)
    ensures var s := Run(EMPTY, es);
            var (s', response) := Step(s, e);
            && (response.Refused? && !IsDenial(response) ==> s' == s)
            && (IsDenial(response) ==>
                  e.op.Reserve? && OnlyDenies(s, s', e.op.who, e.op.terms, e.op.now, response.code))
  {
    hide Inv, Evolves, Step, OnlyDenies, Prepare;
    var s := Reach(es);
    StepRefusal(s, e);
  }

  /* ---------- What a retention finding is worth ---------- */

  lemma {:induction false} HistoryExtended(es: seq<UsageEntry>, es': seq<UsageEntry>, o: string, budgetId: string,
                                           cutoff: int)
    requires es <= es'
    requires forall i | |es| <= i < |es'| ::
               !(es'[i].organizationId == o && es'[i].budgetId == budgetId && es'[i].windowIndex <= cutoff)
    ensures History(es', o, budgetId, cutoff) == History(es, o, budgetId, cutoff)
    decreases |es'|
  {
    if |es| < |es'| {
      HistoryExtended(es, es'[..|es'| - 1], o, budgetId, cutoff);
    } else {
      assert es == es';
    }
  }

  /** Every window up to the cutoff has ended when the finding is made. */
  lemma CutoffIsClosed(s: Ledger, b: Budget, now: int, k: AggregateKey)
    requires BudgetKey(k.organizationId, k.budgetId) in s.budgets
    requires s.budgets[BudgetKey(k.organizationId, k.budgetId)] == b
    requires k.organizationId in s.lastClock && s.lastClock[k.organizationId] == now
    requires WindowAt(b, now).Ok? && k.windowIndex < WindowAt(b, now).value.index
    ensures Closed(s, k)
  {
    MultiplesAreOrdered(k.windowIndex, WindowAt(b, now).value.index, b.windowSeconds);
    assert (k.windowIndex + 1) * b.windowSeconds == k.windowIndex * b.windowSeconds + b.windowSeconds;
  }

  lemma ClosedHistoryStays(s: Ledger, s': Ledger, b: Budget, now: int, cutoff: int)
    requires Evolves(s, s')
    requires BudgetKey(b.organizationId, b.budgetId) in s.budgets
    requires s.budgets[BudgetKey(b.organizationId, b.budgetId)] == b
    requires b.organizationId in s.lastClock && s.lastClock[b.organizationId] == now
    requires WindowAt(b, now).Ok? && cutoff < WindowAt(b, now).value.index
    ensures History(s'.usageEntries, b.organizationId, b.budgetId, cutoff) ==
            History(s.usageEntries, b.organizationId, b.budgetId, cutoff)
  {
    hide WindowAt, Closed;
    forall i | |s.usageEntries| <= i < |s'.usageEntries|
      ensures var e := s'.usageEntries[i];
              !(e.organizationId == b.organizationId && e.budgetId == b.budgetId && e.windowIndex <= cutoff)
    {
      var e := s'.usageEntries[i];
      if e.organizationId == b.organizationId && e.budgetId == b.budgetId && e.windowIndex <= cutoff {
        CutoffIsClosed(s, b, now, EntryKey(e));
        assert false;
      }
    }
    HistoryExtended(s.usageEntries, s'.usageEntries, b.organizationId, b.budgetId, cutoff);
  }

  /** What a retention call that shows a finding has found out. */
  lemma RetentionShows(s: Ledger, who: Identity, budgetId: string, now: int, fails: bool)
    requires RetentionStep(s, who, budgetId, now, fails).1.RetentionShown?
    ensures var (s', response) := RetentionStep(s, who, budgetId, now, fails);
            var finding := response.retention;
            && BudgetKey(who.organizationId, budgetId) in s'.budgets
            && who.organizationId in s'.lastClock && s'.lastClock[who.organizationId] == now
            && WindowAt(s'.budgets[BudgetKey(who.organizationId, budgetId)], now).Ok?
            && finding.cutoff < WindowAt(s'.budgets[BudgetKey(who.organizationId, budgetId)], now).value.index
            && finding.history == History(s.usageEntries, who.organizationId, budgetId, finding.cutoff)
            && finding.due == (finding.history != [])
            && s'.usageEntries == s.usageEntries
  {
    hide WindowAt, History;
  }

  /** A retention finding is final: whatever the run does afterwards, the usage history of the budget
      up to the finding's cutoff is the one it showed, and any later finding with that cutoff shows
      the same. */
  lemma RetentionIsFinal(es: seq<Event>, who: Identity, budgetId: string, now: int, fails: bool, more: seq<Event>,
                         who': Identity, now': int, fails': bool)
    requires RetentionStep(Run(EMPTY, es), who, budgetId, now, fails).1.RetentionShown?
    requires who'.organizationId == who.organizationId
    ensures var (s1, response) := RetentionStep(Run(EMPTY, es), who, budgetId, now, fails);
            var finding := response.retention;
            var s2 := Run(s1, more);
            var again := RetentionStep(s2, who', budgetId, now', fails').1;
            && History(s2.usageEntries, who.organizationId, budgetId, finding.cutoff) == finding.history
            && (again.RetentionShown? && again.retention.cutoff == finding.cutoff ==>
                  again.retention.history == finding.history && again.retention.due == finding.due)
  {
    hide Inv, Step, Evolves, Elsewhere, WindowAt, History, RetentionStep;
    var s := Reach(es);
    var s1 := RetentionKeeps(s, who, budgetId, now, fails);
    var s2 := RunKeeps(s1, more);
    RetentionShows(s, who, budgetId, now, fails);
    if RetentionStep(s2, who', budgetId, now', fails').1.RetentionShown? {
      RetentionShows(s2, who', budgetId, now', fails');
    }
    FoundBudget(s1, who.organizationId, budgetId);
    var b := s1.budgets[BudgetKey(who.organizationId, budgetId)];
    var finding := RetentionStep(s, who, budgetId, now, fails).1.retention;
    ClosedHistoryStays(s1, s2, b, now, finding.cutoff);
  }
}
