/** Settling one live reservation -- by commit, release or expiry -- keeps the invariant, and
    never runs into an internal failure. */
module LedgerSettlement {
  import opened Results
  import opened Dimensions
  import opened UsageModels
  import opened LedgerSpec
  import opened LedgerInvariant
  import opened LedgerSequences

  /** A full recomputation agrees with the books, so marking a window records a match. */
  lemma MarkingMatches(s: Ledger, b: Budget, index: nat)
    requires BooksOk(s) && CapsOk(s)
    ensures MarkReconciled(s, b, index) == Ok(s.(reconciled := s.reconciled[KeyOf(b, index) := Match]))
  {
    RecomputationAgrees(s, b, index, WindowStart(b, index));
  }

  lemma RecomputationAgrees(s: Ledger, b: Budget, index: nat, now: int)
    requires BooksOk(s) && CapsOk(s)
    ensures Recomputed(s, b, index, now).Ok?
    ensures StatusOf(Recomputed(s, b, index, now).value, AggregateAt(s, b, index, now)) == Match
  {
    var k := KeyOf(b, index);
    var committed, reserved := CommittedTotals(s.usageEntries, k), ReservedTotals(s.reservations, k);
    assert IsSafe(committed) && IsSafe(reserved) by {
      forall d | 0 <= d < COUNT ensures committed[d] <= SAFE_INTEGER_MAX && reserved[d] <= SAFE_INTEGER_MAX {
        assert CommittedIn(s.usageEntries, k, d) + ReservedIn(s.reservations, k, d) <= SAFE_INTEGER_MAX;
      }
    }
    assert committed == CommittedAt(s, k);
    assert reserved == ReservedAt(s, k);
  }

  /** The part of `r`'s window held by `r` itself. */
  lemma {:induction false} MemberIsReserved(rs: seq<Reservation>, r: Reservation, d: nat)
    requires d < COUNT && r in rs && r.state == Reserved
    ensures r.requested[d] <= ReservedIn(rs, ReservationKey(r), d)
  {
    var init, last := rs[..|rs| - 1], rs[|rs| - 1];
    assert rs == init + [last];
    if r != last {
      MemberIsReserved(init, r, d);
    }
  }

  ghost predicate MaySettle(s: Ledger, r: Reservation, t: Transition) {
    && r in s.reservations
    && r.state == Reserved
    && TransitionFits(r.(state := t.state), t)
    && t.organizationId in s.lastClock
    && t.occurredAt == s.lastClock[t.organizationId]
    && (t.keyDigest.OfKey? ==> TransitionKey(t) !in s.idempotency)
  }

  /** What a settlement changes, apart from the reconciliation marks. */
  ghost predicate SettleEffect(s: Ledger, r: Reservation, t: Transition, subject: Subject, s': Ledger) {
    var k := ReservationKey(r);
    && s'.budgets == s.budgets
    && s'.lastClock == s.lastClock
    && s'.reconciliations == s.reconciliations
    && s'.retentions == s.retentions
    && s'.reservations == WithState(s.reservations, r.reservationId, t.state)
    && s'.transitions == s.transitions + [t]
    && s'.usageEntries == s.usageEntries + (if t.state == Committed then [EntryOf(r, t)] else [])
    && s'.idempotency ==
       (if t.keyDigest.OfKey? then s.idempotency[TransitionKey(t) := Binding(t.request, t.transitionId)]
        else s.idempotency)
    && s'.audit == s.audit + [Emitted(EventOf(t, subject))]
    && s'.outbox == s.outbox + [EventOf(t, subject)]
    && k in s'.aggregates
    && s'.aggregates == s.aggregates[k := s'.aggregates[k]]
    && k == AggregateKey(s'.aggregates[k].organizationId, s'.aggregates[k].budgetId, s'.aggregates[k].windowIndex)
    && forall d | 0 <= d < COUNT ::
         && s'.aggregates[k].committed[d] == CommittedAt(s, k)[d] + (if t.state == Committed then t.observed[d] else 0)
         && s'.aggregates[k].reserved[d] + r.requested[d] == ReservedAt(s, k)[d]
  }

  lemma SettleBook(s: Ledger, r: Reservation, t: Transition, subject: Subject, s': Ledger, k: AggregateKey, d: nat)
    requires BooksOk(s) && ReservationsOk(s) && MaySettle(s, r, t) && SettleEffect(s, r, t, subject, s') && d < COUNT
    ensures CommittedAt(s', k)[d] == CommittedIn(s'.usageEntries, k, d)
    ensures ReservedAt(s', k)[d] == ReservedIn(s'.reservations, k, d)
  {
    hide ReservationOk, TransitionFits, CommittedIn, ReservedIn;
    SettlesItsOwn(r, t);
    ReservedWithState(s.reservations, r, t.state, k, d);
    CommittedAppended(s.usageEntries, EntryOf(r, t), k, d);
    assert CommittedAt(s, k)[d] == CommittedIn(s.usageEntries, k, d);
    assert ReservedAt(s, k)[d] == ReservedIn(s.reservations, k, d);
    assert s'.usageEntries == if t.state == Committed then s.usageEntries + [EntryOf(r, t)] else s.usageEntries;
  }

  lemma SettlesItsOwn(r: Reservation, t: Transition)
    requires TransitionFits(r.(state := t.state), t)
    ensures EntryKey(EntryOf(r, t)) == ReservationKey(r) && t.state != Reserved
  {
  }

  lemma SettleBooks(s: Ledger, r: Reservation, t: Transition, subject: Subject, s': Ledger)
    requires BooksOk(s) && ReservationsOk(s) && MaySettle(s, r, t) && SettleEffect(s, r, t, subject, s')
    ensures BooksOk(s')
  {
    hide WithState, CommittedIn, ReservedIn, CommittedAt, ReservedAt;
    assert ReservationOk(s, r);
    forall k: AggregateKey, d: nat | d < COUNT
      ensures CommittedAt(s', k)[d] == CommittedIn(s'.usageEntries, k, d)
      ensures ReservedAt(s', k)[d] == ReservedIn(s'.reservations, k, d)
    {
      SettleBook(s, r, t, subject, s', k, d);
    }
  }

  lemma SettleCaps(s: Ledger, r: Reservation, t: Transition, subject: Subject, s': Ledger)
    requires CapsOk(s) && ReservationsOk(s) && MaySettle(s, r, t) && SettleEffect(s, r, t, subject, s')
    ensures CapsOk(s')
  {
    forall k: AggregateKey, d: nat | d < COUNT
      ensures CommittedIn(s'.usageEntries, k, d) + ReservedIn(s'.reservations, k, d) <=
              CommittedIn(s.usageEntries, k, d) + ReservedIn(s.reservations, k, d)
    {
      ReservedWithState(s.reservations, r, t.state, k, d);
      CommittedAppended(s.usageEntries, EntryOf(r, t), k, d);
      assert t.observed[d] <= r.requested[d];
      assert s'.usageEntries == if t.state == Committed then s.usageEntries + [EntryOf(r, t)] else s.usageEntries;
    }
  }

  /** The checked additions and subtractions of a settlement go through. */
  lemma SettlementAdds(s: Ledger, r: Reservation, t: Transition, b: Budget)
    requires BooksOk(s) && CapsOk(s) && MaySettle(s, r, t)
    requires b.organizationId == r.organizationId && b.budgetId == r.budgetId
    ensures SettledAggregate(s, b, r, t).Ok?
  {
    var k := ReservationKey(r);
    forall d | 0 <= d < COUNT
      ensures r.requested[d] <= ReservedAt(s, k)[d]
      ensures t.state == Committed ==> Plus(CommittedAt(s, k), t.observed)[d] <= SAFE_INTEGER_MAX
    {
      MemberIsReserved(s.reservations, r, d);
      assert CommittedAt(s, k)[d] == CommittedIn(s.usageEntries, k, d);
      assert ReservedAt(s, k)[d] == ReservedIn(s.reservations, k, d);
      assert t.observed[d] <= r.requested[d];
      assert CommittedIn(s.usageEntries, k, d) + ReservedIn(s.reservations, k, d) <= SAFE_INTEGER_MAX;
    }
  }

  /** What the new aggregate holds. */
  ghost predicate AmountsMoved(s: Ledger, r: Reservation, t: Transition, aggregate: Aggregate) {
    var k := ReservationKey(r);
    && k == AggregateKey(aggregate.organizationId, aggregate.budgetId, aggregate.windowIndex)
    && forall d | 0 <= d < COUNT ::
         && aggregate.committed[d] == CommittedAt(s, k)[d] + (if t.state == Committed then t.observed[d] else 0)
         && aggregate.reserved[d] + r.requested[d] == ReservedAt(s, k)[d]
  }

  lemma SettlementMoves(s: Ledger, r: Reservation, t: Transition, b: Budget, aggregate: Aggregate)
    requires BooksOk(s) && b.organizationId == r.organizationId && b.budgetId == r.budgetId
    requires SettledAggregate(s, b, r, t) == Ok(aggregate)
    ensures AmountsMoved(s, r, t, aggregate)
  {
    var k := ReservationKey(r);
    var before := AggregateAt(s, b, r.window.index, t.occurredAt);
    assert before.committed == CommittedAt(s, k) && before.reserved == ReservedAt(s, k);
    assert Plus(aggregate.reserved, r.requested) == before.reserved;
    forall d | 0 <= d < COUNT ensures aggregate.reserved[d] + r.requested[d] == ReservedAt(s, k)[d] {
      assert Plus(aggregate.reserved, r.requested)[d] == before.reserved[d];
    }
  }

  lemma SettledHasEffect(s: Ledger, r: Reservation, t: Transition, subject: Subject, b: Budget, aggregate: Aggregate)
    requires MaySettle(s, r, t) && b.organizationId == r.organizationId && b.budgetId == r.budgetId
    requires AmountsMoved(s, r, t, aggregate)
    ensures SettleEffect(s, r, t, subject, Settled(s, b, r, t, subject, aggregate))
  {
    hide WithState, EntryOf, EventOf, CommittedAt, ReservedAt, TransitionFits;
    assert KeyOf(b, r.window.index) == ReservationKey(r);
    assert Settled(s, b, r, t, subject, aggregate).aggregates[ReservationKey(r)] == aggregate;
  }

  lemma MarksAreApart(s: Ledger, marks: map<AggregateKey, Status>)
    requires BooksOk(s) && CapsOk(s)
    ensures BooksOk(s.(reconciled := marks)) && CapsOk(s.(reconciled := marks))
  {
    var s' := s.(reconciled := marks);
    forall k: AggregateKey, d: nat | d < COUNT
      ensures CommittedAt(s', k)[d] == CommittedIn(s'.usageEntries, k, d)
      ensures ReservedAt(s', k)[d] == ReservedIn(s'.reservations, k, d)
    {
      assert CommittedAt(s, k)[d] == CommittedIn(s.usageEntries, k, d);
      assert ReservedAt(s, k)[d] == ReservedIn(s.reservations, k, d);
    }
  }

  lemma SettleUnfolds(s: Ledger, r: Reservation, t: Transition, subject: Subject, b: Budget, aggregate: Aggregate)
    requires BudgetKey(t.organizationId, r.budgetId) in s.budgets
    requires b == s.budgets[BudgetKey(t.organizationId, r.budgetId)]
    requires SettledAggregate(s, b, r, t) == Ok(aggregate)
    ensures Settle(s, r, t, subject) == MarkReconciled(Settled(s, b, r, t, subject, aggregate), b, r.window.index)
  {
  }

  /** No look-up, addition or subtraction of a settlement can fail. */
  lemma SettleSucceeds(s: Ledger, r: Reservation, t: Transition, subject: Subject) returns (s': Ledger)
    requires BudgetsOk(s) && ReservationsOk(s) && BooksOk(s) && CapsOk(s) && MaySettle(s, r, t)
    ensures Settle(s, r, t, subject) == Ok(s')
    ensures SettleEffect(s, r, t, subject, s') && BooksOk(s') && CapsOk(s')
    ensures s'.reconciled == s.reconciled[ReservationKey(r) := Match]
  {
    var b := BudgetOf(s, r);
    SettlementAdds(s, r, t, b);
    var aggregate := SettledAggregate(s, b, r, t).value;
    SettlementMoves(s, r, t, b, aggregate);
    SettledHasEffect(s, r, t, subject, b, aggregate);
    var settled := Settled(s, b, r, t, subject, aggregate);
    SettleBooks(s, r, t, subject, settled);
    SettleCaps(s, r, t, subject, settled);
    SettleUnfolds(s, r, t, subject, b, aggregate);
    s' := MarkAfterSettling(s, r, t, subject, settled, b);
  }

  lemma BudgetOf(s: Ledger, r: Reservation) returns (b: Budget)
    requires BudgetsOk(s) && ReservationsOk(s) && r in s.reservations
    ensures BudgetKey(r.organizationId, r.budgetId) in s.budgets
    ensures b == s.budgets[BudgetKey(r.organizationId, r.budgetId)]
    ensures b.organizationId == r.organizationId && b.budgetId == r.budgetId
  {
    assert ReservationOk(s, r);
    b := s.budgets[BudgetKey(r.organizationId, r.budgetId)];
  }

  lemma MarkAfterSettling(s: Ledger, r: Reservation, t: Transition, subject: Subject, settled: Ledger, b: Budget)
    returns (s': Ledger)
    requires SettleEffect(s, r, t, subject, settled) && BooksOk(settled) && CapsOk(settled)
    requires settled.reconciled == s.reconciled
    requires b.organizationId == r.organizationId && b.budgetId == r.budgetId
    ensures MarkReconciled(settled, b, r.window.index) == Ok(s')
    ensures SettleEffect(s, r, t, subject, s') && BooksOk(s') && CapsOk(s')
    ensures s'.reconciled == s.reconciled[ReservationKey(r) := Match]
  {
    MarkingMatches(settled, b, r.window.index);
    var marks := settled.reconciled[KeyOf(b, r.window.index) := Match];
    MarksAreApart(settled, marks);
    s' := settled.(reconciled := marks);
  }

  /* ---------- The other parts of the invariant ---------- */

  lemma SettleKeepsReservations(s: Ledger, r: Reservation, t: Transition, subject: Subject, s': Ledger)
    requires ReservationsOk(s) && MaySettle(s, r, t) && SettleEffect(s, r, t, subject, s')
    ensures ReservationsOk(s')
  {
    WithStateIsInPlace(s.reservations, r, t.state);
    forall x | x in s'.reservations ensures ReservationOk(s', x) {
      assert ReservationOk(s, if x == r.(state := t.state) then r else x);
    }
  }

  /** The settled reservation had no transition before. */
  lemma NotYetSettled(s: Ledger, r: Reservation, t: Transition)
    requires ReservationsOk(s) && TransitionsOk(s) && r in s.reservations && r.state == Reserved && t in s.transitions
    ensures t.reservationId != r.reservationId
  {
    FindMember(s.reservations, r);
    assert TransitionOk(s, t);
  }

  lemma SettleKeepsTransitions(s: Ledger, r: Reservation, t: Transition, subject: Subject, s': Ledger)
    requires ReservationsOk(s) && TransitionsOk(s) && MaySettle(s, r, t) && SettleEffect(s, r, t, subject, s')
    ensures TransitionsOk(s')
  {
    hide WithState, FindReservation, EventOf, EntryOf;
    forall x | x in s'.transitions ensures TransitionOk(s', x) {
      FindWithState(s.reservations, r.reservationId, t.state, x.reservationId);
      if x in s.transitions {
        assert TransitionOk(s, x);
        NotYetSettled(s, r, x);
      } else {
        FindMember(s.reservations, r);
      }
    }
    WithStateIsInPlace(s.reservations, r, t.state);
    forall x | x in s'.reservations && x.state != Reserved ensures Settles(s'.transitions, x) {
      if x == r.(state := t.state) {
        assert t in s'.transitions;
      } else {
        assert Settles(s.transitions, x);
        var y :| y in s.transitions && y.reservationId == x.reservationId;
        assert y in s'.transitions;
      }
    }
    forall i | 0 <= i < |s.transitions|
      ensures s.transitions[i].reservationId != t.reservationId
      ensures s.transitions[i].organizationId == t.organizationId ==> s.transitions[i].occurredAt <= t.occurredAt
    {
      NotYetSettled(s, r, s.transitions[i]);
      assert TransitionOk(s, s.transitions[i]);
    }
  }

  lemma SettleKeepsEntries(s: Ledger, r: Reservation, t: Transition, subject: Subject, s': Ledger)
    requires ReservationsOk(s) && EntriesOk(s) && MaySettle(s, r, t) && SettleEffect(s, r, t, subject, s')
    ensures EntriesOk(s')
  {
    hide WithState, FindReservation, EventOf, CommittedOnes;
    var ts, ts' := CommittedOnes(s.transitions), CommittedOnes(s'.transitions);
    CommittedOnesAppended(s.transitions, t);
    FindMember(s.reservations, r);
    forall i | 0 <= i < |ts'|
      ensures FindReservation(s'.reservations, ts'[i].reservationId).Some?
      ensures s'.usageEntries[i] == EntryOf(FindReservation(s'.reservations, ts'[i].reservationId).value, ts'[i])
    {
      FindWithState(s.reservations, r.reservationId, t.state, ts'[i].reservationId);
      if i < |ts| {
        assert ts'[i] == ts[i];
      }
    }
  }

  lemma SettleKeepsBinding(s: Ledger, r: Reservation, t: Transition, subject: Subject, s': Ledger, k: IdempotencyKey)
    requires DistinctIds(s.reservations) && k in s.idempotency && BindingOk(s, k, s.idempotency[k])
    requires SettleEffect(s, r, t, subject, s')
    ensures BindingOk(s', k, s.idempotency[k])
  {
    hide WithState, FindReservation, FindTransition;
    var id := s.idempotency[k].id;
    FindTransitionAppended(s.transitions, t, id);
    FindWithState(s.reservations, r.reservationId, t.state, id);
  }

  lemma SettleKeepsBindings(s: Ledger, r: Reservation, t: Transition, subject: Subject, s': Ledger)
    requires ReservationsOk(s) && TransitionsOk(s) && KeysOk(s) && MaySettle(s, r, t)
    requires SettleEffect(s, r, t, subject, s')
    ensures forall k | k in s'.idempotency :: BindingOk(s', k, s'.idempotency[k])
  {
    hide ReservationOk, TransitionOk, FindTransition, FindReservation, WithState;
    forall k | k in s'.idempotency ensures BindingOk(s', k, s'.idempotency[k]) {
      if t.keyDigest.OfKey? && k == TransitionKey(t) {
        FindTransitionAppended(s.transitions, t, t.transitionId);
        NoSuchTransition(s, t);
      } else {
        SettleKeepsBinding(s, r, t, subject, s', k);
      }
    }
  }

  /** A fresh key means a fresh transition id. */
  lemma NoSuchTransition(s: Ledger, t: Transition)
    requires TransitionsOk(s) && KeysOk(s)
    requires t.keyDigest.OfKey? && TransitionKey(t) !in s.idempotency
    requires t.request ==
             TransitionRequest(t.organizationId, t.reservationId, t.state, t.keyDigest.key, t.observed, t.reason)
    requires t.transitionId == TransitionId(t.request)
    ensures FindTransition(s.transitions, t.transitionId).None?
  {
    forall x | x in s.transitions ensures x.transitionId != t.transitionId {
      assert TransitionOk(s, x);
    }
  }

  lemma SettleKeepsReserveKeys(s: Ledger, r: Reservation, t: Transition, subject: Subject, s': Ledger)
    requires ReservationsOk(s) && KeysOk(s) && MaySettle(s, r, t) && SettleEffect(s, r, t, subject, s')
    ensures forall x | x in s'.reservations ::
              ReserveKey(x) in s'.idempotency && s'.idempotency[ReserveKey(x)] == Binding(x.request, x.reservationId)
  {
    hide WithState, ReservationOk, BindingOk, TransitionFits, EventOf, EntryOf;
    WithStateIsInPlace(s.reservations, r, t.state);
    forall x | x in s'.reservations
      ensures ReserveKey(x) in s'.idempotency && s'.idempotency[ReserveKey(x)] == Binding(x.request, x.reservationId)
    {
      var y := if x == r.(state := t.state) then r else x;
      assert y in s.reservations && ReserveKey(y) == ReserveKey(x);
    }
  }

  lemma SettleKeepsTransitionKeys(s: Ledger, r: Reservation, t: Transition, subject: Subject, s': Ledger)
    requires KeysOk(s) && MaySettle(s, r, t) && SettleEffect(s, r, t, subject, s')
    ensures forall x | x in s'.transitions && x.keyDigest.OfKey? ::
              && TransitionKey(x) in s'.idempotency
              && s'.idempotency[TransitionKey(x)] == Binding(x.request, x.transitionId)
  {
  }

  lemma SettleKeepsLogs(s: Ledger, r: Reservation, t: Transition, subject: Subject, s': Ledger)
    requires LogsOk(s) && MaySettle(s, r, t) && SettleEffect(s, r, t, subject, s')
    ensures LogsOk(s')
  {
    var e := EventOf(t, subject);
    SelectAppended(s.outbox, e, true);
    SelectAppended(s.outbox, e, false);
    EmissionsAppended(s.audit, Emitted(e));
    var admissions := Select(s.outbox, true);
    forall i | 0 <= i < |admissions| ensures AnnouncesReservation(admissions[i], s'.reservations[i]) {
      assert AnnouncesReservation(admissions[i], s.reservations[i]);
    }
    var settlements, settlements' := Select(s.outbox, false), Select(s'.outbox, false);
    assert settlements' == settlements + [e];
    forall i | 0 <= i < |settlements'| ensures settlements'[i] == EventOf(s'.transitions[i], settlements'[i].subject) {
      if i < |settlements| {
        assert settlements[i] == EventOf(s.transitions[i], settlements[i].subject);
      }
    }
  }

  /** Settling happens before the end of the window or commits nothing, so closed windows stay
      closed. */
  lemma OneStateEvolves(rs: seq<Reservation>, r: Reservation, state: ReservationState)
    requires DistinctIds(rs) && r in rs && r.state == Reserved
    ensures ReservationsEvolve(rs, WithState(rs, r.reservationId, state))
  {
    hide WithState;
    var i :| 0 <= i < |rs| && rs[i] == r;
  }

  /** Usage is committed only to a window that is still open. */
  lemma SettleSparesClosed(s: Ledger, r: Reservation, t: Transition, subject: Subject, s': Ledger)
    requires ReservationOk(s, r) && MaySettle(s, r, t) && SettleEffect(s, r, t, subject, s')
    ensures ClosedStayClosed(s, s')
  {
    hide WithState, EventOf;
    assert EntryKey(EntryOf(r, t)) == ReservationKey(r);
  }

  lemma SettleEvolves(s: Ledger, r: Reservation, t: Transition, subject: Subject, s': Ledger)
    requires ReservationsOk(s) && MaySettle(s, r, t) && SettleEffect(s, r, t, subject, s')
    ensures Evolves(s, s')
  {
    hide WithState, EventOf, EntryOf, TransitionFits, ReservationOk, ReservationsEvolve, ClosedStayClosed;
    OneStateEvolves(s.reservations, r, t.state);
    SettleSparesClosed(s, r, t, subject, s');
  }

  lemma SettleKeepsRecords(s: Ledger, r: Reservation, t: Transition, subject: Subject, s': Ledger)
    requires ReservationsOk(s) && TransitionsOk(s) && EntriesOk(s) && MaySettle(s, r, t)
    requires SettleEffect(s, r, t, subject, s')
    ensures ReservationsOk(s') && TransitionsOk(s') && EntriesOk(s')
  {
    SettleKeepsReservations(s, r, t, subject, s');
    SettleKeepsTransitions(s, r, t, subject, s');
    SettleKeepsEntries(s, r, t, subject, s');
  }

  lemma SettleKeepsKeys(s: Ledger, r: Reservation, t: Transition, subject: Subject, s': Ledger)
    requires ReservationsOk(s) && TransitionsOk(s) && KeysOk(s) && MaySettle(s, r, t)
    requires SettleEffect(s, r, t, subject, s')
    ensures KeysOk(s')
  {
    SettleKeepsBindings(s, r, t, subject, s');
    SettleKeepsReserveKeys(s, r, t, subject, s');
    SettleKeepsTransitionKeys(s, r, t, subject, s');
  }

  lemma SettleKeepsMarks(s: Ledger, r: Reservation, t: Transition, subject: Subject, s': Ledger)
    requires BudgetsOk(s) && MarksOk(s) && SettleEffect(s, r, t, subject, s')
    requires s'.reconciled == s.reconciled[ReservationKey(r) := Match]
    ensures BudgetsOk(s') && MarksOk(s')
  {
  }

  lemma SettleKeepsInv(s: Ledger, r: Reservation, t: Transition, subject: Subject, s': Ledger)
    requires Inv(s) && MaySettle(s, r, t) && SettleEffect(s, r, t, subject, s')
    requires BooksOk(s') && CapsOk(s') && s'.reconciled == s.reconciled[ReservationKey(r) := Match]
    ensures Inv(s')
  {
    SettleKeepsRecords(s, r, t, subject, s');
    SettleKeepsKeys(s, r, t, subject, s');
    SettleKeepsLogs(s, r, t, subject, s');
    SettleKeepsMarks(s, r, t, subject, s');
  }

  /** Settling succeeds and keeps everything. */
  lemma SettleKeeps(s: SoundLedger, r: Reservation, t: Transition, subject: Subject) returns (s': SoundLedger)
    requires MaySettle(s, r, t)
    ensures Settle(s, r, t, subject) == Ok(s')
    ensures SettleEffect(s, r, t, subject, s')
    ensures s'.reconciled == s.reconciled[ReservationKey(r) := Match]
    ensures Evolves(s, s')
  {
    var settled := SettleSucceeds(s, r, t, subject);
    SettleKeepsInv(s, r, t, subject, settled);
    SettleEvolves(s, r, t, subject, settled);
    s' := settled;
  }
}
