/** One tenant's slice of a ledger, and how single updates act on it. */
module TenantSlices {
  import opened Results
  import opened Dimensions
  import opened UsageModels
  import opened LedgerSpec
  import opened LedgerInvariant
  import opened LedgerSequences
  import opened LedgerSettlement
  import opened LedgerAdmission

  /* ---------- Slices ---------- */

  /** The items of `xs` that `owner` assigns to tenant `o`, in order. */
  function Pick<T>(xs: seq<T>, owner: T -> string, o: string): seq<T> {
    if xs == [] then []
    else
      var earlier := Pick(xs[..|xs| - 1], owner, o);
      if owner(xs[|xs| - 1]) == o then earlier + [xs[|xs| - 1]] else earlier
  }

  function OfReservation(r: Reservation): string { r.organizationId }

  function OfTransition(t: Transition): string { t.organizationId }

  function OfEntry(e: UsageEntry): string { e.organizationId }

  function OfOutboxEvent(e: OutboxEvent): string { e.organizationId }

  function OfAudit(a: AuditRecord): string {
    match a
    case Denied(o, _, _, _, _) => o
    case Emitted(e) => e.organizationId
  }

  function OfReconciliation(f: ReconciliationFinding): string { f.organizationId }

  function OfRetention(f: RetentionFinding): string { f.organizationId }

  function BudgetsOf(m: map<BudgetKey, Budget>, o: string): map<BudgetKey, Budget> {
    map k | k in m && k.organizationId == o :: m[k]
  }

  function AggregatesOf(m: map<AggregateKey, Aggregate>, o: string): map<AggregateKey, Aggregate> {
    map k | k in m && k.organizationId == o :: m[k]
  }

  function BindingsOf(m: map<IdempotencyKey, Binding>, o: string): map<IdempotencyKey, Binding> {
    map k | k in m && k.organizationId == o :: m[k]
  }

  function ClockOf(m: map<string, int>, o: string): map<string, int> {
    map k | k in m && k == o :: m[k]
  }

  function MarksOf(m: map<AggregateKey, Status>, o: string): map<AggregateKey, Status> {
    map k | k in m && k.organizationId == o :: m[k]
  }

  /** Everything in the ledger that belongs to tenant `o`. */
  function Slice(s: Ledger, o: string): Ledger {
    Ledger(
      BudgetsOf(s.budgets, o),
      Pick(s.reservations, OfReservation, o),
      Pick(s.transitions, OfTransition, o),
      Pick(s.usageEntries, OfEntry, o),
      AggregatesOf(s.aggregates, o),
      BindingsOf(s.idempotency, o),
      Pick(s.audit, OfAudit, o),
      Pick(s.outbox, OfOutboxEvent, o),
      Pick(s.reconciliations, OfReconciliation, o),
      Pick(s.retentions, OfRetention, o),
      ClockOf(s.lastClock, o),
      MarksOf(s.reconciled, o))
  }

  lemma BudgetsUpdated(m: map<BudgetKey, Budget>, k: BudgetKey, v: Budget, o: string)
    ensures BudgetsOf(m[k := v], o) == if k.organizationId == o then BudgetsOf(m, o)[k := v] else BudgetsOf(m, o)
  {
  }

  lemma AggregatesUpdated(m: map<AggregateKey, Aggregate>, k: AggregateKey, v: Aggregate, o: string)
    ensures AggregatesOf(m[k := v], o) ==
            if k.organizationId == o then AggregatesOf(m, o)[k := v] else AggregatesOf(m, o)
  {
  }

  lemma BindingsUpdated(m: map<IdempotencyKey, Binding>, k: IdempotencyKey, v: Binding, o: string)
    ensures BindingsOf(m[k := v], o) == if k.organizationId == o then BindingsOf(m, o)[k := v] else BindingsOf(m, o)
  {
  }

  lemma ClockUpdated(m: map<string, int>, k: string, v: int, o: string)
    ensures ClockOf(m[k := v], o) == if k == o then ClockOf(m, o)[k := v] else ClockOf(m, o)
  {
  }

  lemma MarksUpdated(m: map<AggregateKey, Status>, k: AggregateKey, v: Status, o: string)
    ensures MarksOf(m[k := v], o) == if k.organizationId == o then MarksOf(m, o)[k := v] else MarksOf(m, o)
  {
  }

  function SliceOf(r: Result<Ledger, Denial>, o: string): Result<Ledger, Denial> {
    match r
    case Ok(s) => Ok(Slice(s, o))
    case Err(code) => Err(code)
  }

  lemma PickAppended<T>(xs: seq<T>, x: T, owner: T -> string, o: string)
    ensures Pick(xs + [x], owner, o) == Pick(xs, owner, o) + if owner(x) == o then [x] else []
  {
    assert (xs + [x])[..|xs|] == xs;
  }

  /* ---------- Look-ups, filters and sums see only the tenant's items ---------- */

  lemma {:induction false} DueOfSlice(rs: seq<Reservation>, o: string, now: int)
    ensures Due(Pick(rs, OfReservation, o), o, now) == Due(rs, o, now)
  {
    if rs != [] {
      var init, last := rs[..|rs| - 1], rs[|rs| - 1];
      DueOfSlice(init, o, now);
      if last.organizationId == o {
        var picked := Pick(init, OfReservation, o);
        assert (picked + [last])[..|picked|] == picked;
      }
    }
  }

  lemma {:induction false} CommittedOfSlice(es: seq<UsageEntry>, k: AggregateKey, d: nat)
    requires d < COUNT
    ensures CommittedIn(Pick(es, OfEntry, k.organizationId), k, d) == CommittedIn(es, k, d)
  {
    if es != [] {
      var init, last := es[..|es| - 1], es[|es| - 1];
      CommittedOfSlice(init, k, d);
      CommittedAppended(Pick(init, OfEntry, k.organizationId), last, k, d);
    }
  }

  lemma {:induction false} ReservedOfSlice(rs: seq<Reservation>, k: AggregateKey, d: nat)
    requires d < COUNT
    ensures ReservedIn(Pick(rs, OfReservation, k.organizationId), k, d) == ReservedIn(rs, k, d)
  {
    if rs != [] {
      var init, last := rs[..|rs| - 1], rs[|rs| - 1];
      ReservedOfSlice(init, k, d);
      ReservedAppended(Pick(init, OfReservation, k.organizationId), last, k, d);
    }
  }

  lemma {:induction false} HistoryOfSlice(es: seq<UsageEntry>, o: string, budgetId: string, cutoff: int)
    ensures History(Pick(es, OfEntry, o), o, budgetId, cutoff) == History(es, o, budgetId, cutoff)
  {
    if es != [] {
      var init, last := es[..|es| - 1], es[|es| - 1];
      HistoryOfSlice(init, o, budgetId, cutoff);
      if last.organizationId == o {
        var picked := Pick(init, OfEntry, o);
        assert (picked + [last])[..|picked|] == picked;
      }
    }
  }

  /** A reservation of the tenant is found in its slice; a foreign one is not. */
  lemma {:induction false} FindInSlice(rs: seq<Reservation>, o: string, id: Id)
    requires DistinctIds(rs)
    ensures var f := FindReservation(rs, id);
            FindReservation(Pick(rs, OfReservation, o), id) ==
            if f.Some? && f.value.organizationId == o then f else None
  {
    if rs != [] {
      var init, last := rs[..|rs| - 1], rs[|rs| - 1];
      assert rs == init + [last];
      LastIsNotEarlier(init, last);
      FindInSlice(init, o, id);
      FindAppended(init, last, id);
      if last.organizationId == o {
        FindAppended(Pick(init, OfReservation, o), last, id);
      }
    }
  }

  lemma {:induction false} FindTransitionInSlice(ts: seq<Transition>, o: string, id: Id)
    requires FindTransition(ts, id).None? || FindTransition(ts, id).value.organizationId == o
    ensures FindTransition(Pick(ts, OfTransition, o), id) == FindTransition(ts, id)
  {
    if ts != [] {
      var init, last := ts[..|ts| - 1], ts[|ts| - 1];
      var picked := Pick(init, OfTransition, o);
      FindTransitionInSlice(init, o, id);
      if last.organizationId == o {
        FindTransitionAppended(picked, last, id);
      }
    }
  }

  lemma {:induction false} WithStateOfSlice(rs: seq<Reservation>, id: Id, state: ReservationState, o: string)
    ensures Pick(WithState(rs, id, state), OfReservation, o) == WithState(Pick(rs, OfReservation, o), id, state)
  {
    if rs != [] {
      var init, last := rs[..|rs| - 1], rs[|rs| - 1];
      assert rs == init + [last];
      var last' := if last.reservationId == id then last.(state := state) else last;
      WithStateOfLast(init, last, id, state);
      WithStateOfSlice(init, id, state, o);
      PickAppended(WithState(init, id, state), last', OfReservation, o);
      if last.organizationId == o {
        WithStateOfLast(Pick(init, OfReservation, o), last, id, state);
      }
    }
  }

  lemma {:induction false} PickHasNoForeigner(rs: seq<Reservation>, o: string, r: Reservation)
    ensures r in Pick(rs, OfReservation, o) <==> r in rs && r.organizationId == o
  {
    if rs != [] {
      assert rs == rs[..|rs| - 1] + [rs[|rs| - 1]];
      PickHasNoForeigner(rs[..|rs| - 1], o, r);
    }
  }

  /* ---------- Aggregates ---------- */

  lemma AggregateOfSlice(s: Ledger, b: Budget, index: nat, now: int)
    ensures AggregateAt(Slice(s, b.organizationId), b, index, now) == AggregateAt(s, b, index, now)
  {
  }

  lemma RecomputedOfSlice(s: Ledger, b: Budget, index: nat, now: int)
    ensures Recomputed(Slice(s, b.organizationId), b, index, now) == Recomputed(s, b, index, now)
  {
    var k, t := KeyOf(b, index), Slice(s, b.organizationId);
    assert CommittedTotals(t.usageEntries, k) == CommittedTotals(s.usageEntries, k) by {
      forall d | 0 <= d < COUNT ensures CommittedTotals(t.usageEntries, k)[d] == CommittedTotals(s.usageEntries, k)[d] {
        CommittedOfSlice(s.usageEntries, k, d);
      }
    }
    assert ReservedTotals(t.reservations, k) == ReservedTotals(s.reservations, k) by {
      forall d | 0 <= d < COUNT ensures ReservedTotals(t.reservations, k)[d] == ReservedTotals(s.reservations, k)[d] {
        ReservedOfSlice(s.reservations, k, d);
      }
    }
  }

  lemma MarkOfSlice(s: Ledger, b: Budget, index: nat)
    ensures MarkReconciled(Slice(s, b.organizationId), b, index) ==
            SliceOf(MarkReconciled(s, b, index), b.organizationId)
  {
    var o, start := b.organizationId, WindowStart(b, index);
    RecomputedOfSlice(s, b, index, start);
    AggregateOfSlice(s, b, index, start);
    var expected := Recomputed(s, b, index, start);
    if expected.Ok? {
      MarksUpdated(s.reconciled, KeyOf(b, index), StatusOf(expected.value, AggregateAt(s, b, index, start)), o);
    }
  }

  lemma BudgetStateOfSlice(s: Ledger, b: Budget, index: nat)
    ensures BudgetState(Slice(s, b.organizationId), b, index) == BudgetState(s, b, index)
  {
    AggregateOfSlice(s, b, index, WindowStart(b, index));
    var t := Slice(s, b.organizationId);
    assert EarlierMismatch(t, b, index) == EarlierMismatch(s, b, index) by {
      forall k | k in s.reconciled && k.organizationId == b.organizationId
        ensures k in t.reconciled && t.reconciled[k] == s.reconciled[k]
      {
      }
    }
  }

  /* ---------- Settling ---------- */

  lemma EventOfOwner(s: Ledger, event: OutboxEvent)
    ensures WithEvent(Slice(s, event.organizationId), event) == Slice(WithEvent(s, event), event.organizationId)
  {
    PickAppended(s.audit, Emitted(event), OfAudit, event.organizationId);
    PickAppended(s.outbox, event, OfOutboxEvent, event.organizationId);
  }

  /** What a settlement writes, apart from its event. */
  lemma BookedOfSlice(s: Ledger, k: AggregateKey, r: Reservation, t: Transition, aggregate: Aggregate)
    requires k.organizationId == r.organizationId == t.organizationId
    ensures Booked(Slice(s, t.organizationId), k, r, t, aggregate) ==
            Slice(Booked(s, k, r, t, aggregate), t.organizationId)
  {
    hide Pick, WithState, BudgetsOf, ClockOf, MarksOf, AggregatesOf, BindingsOf;
    var o := t.organizationId;
    WithStateOfSlice(s.reservations, r.reservationId, t.state, o);
    PickAppended(s.transitions, t, OfTransition, o);
    PickAppended(s.usageEntries, EntryOf(r, t), OfEntry, o);
    AggregatesUpdated(s.aggregates, k, aggregate, o);
    if t.keyDigest.OfKey? {
      BindingsUpdated(s.idempotency, TransitionKey(t), Binding(t.request, t.transitionId), o);
    }
  }

  lemma SettledOfSlice(s: Ledger, b: Budget, r: Reservation, t: Transition, subject: Subject, aggregate: Aggregate)
    requires b.organizationId == r.organizationId == t.organizationId
    ensures Settled(Slice(s, b.organizationId), b, r, t, subject, aggregate) ==
            Slice(Settled(s, b, r, t, subject, aggregate), b.organizationId)
  {
    hide Slice, Booked, WithEvent;
    BookedOfSlice(s, KeyOf(b, r.window.index), r, t, aggregate);
    EventOfOwner(Booked(s, KeyOf(b, r.window.index), r, t, aggregate), EventOf(t, subject));
  }

  /** Settling one of the tenant's reservations is the same inside its slice. */
  lemma SettleOfSlice(s: Ledger, r: Reservation, t: Transition, subject: Subject)
    requires BudgetsOk(s) && r.organizationId == t.organizationId
    ensures Settle(Slice(s, t.organizationId), r, t, subject) == SliceOf(Settle(s, r, t, subject), t.organizationId)
  {
    var o, k := t.organizationId, BudgetKey(t.organizationId, r.budgetId);
    if k in s.budgets {
      var b := s.budgets[k];
      AggregateOfSlice(s, b, r.window.index, t.occurredAt);
      var aggregate := SettledAggregate(s, b, r, t);
      assert SettledAggregate(Slice(s, o), b, r, t) == aggregate;
      if aggregate.Ok? {
        SettledOfSlice(s, b, r, t, subject, aggregate.value);
        MarkOfSlice(Settled(s, b, r, t, subject, aggregate.value), b, r.window.index);
      }
    }
  }

  lemma {:induction false} WithStateOfOthers(rs: seq<Reservation>, id: Id, state: ReservationState, o: string)
    requires forall r | r in rs && r.reservationId == id :: r.organizationId != o
    ensures Pick(WithState(rs, id, state), OfReservation, o) == Pick(rs, OfReservation, o)
  {
    if rs != [] {
      var init, last := rs[..|rs| - 1], rs[|rs| - 1];
      assert rs == init + [last];
      WithStateOfLast(init, last, id, state);
      WithStateOfOthers(init, id, state, o);
      var last' := if last.reservationId == id then last.(state := state) else last;
      PickAppended(WithState(init, id, state), last', OfReservation, o);
    }
  }

  /** Settling another tenant's reservation does not show in the slice. */
  lemma SettleOutsideSlice(s: Ledger, r: Reservation, t: Transition, subject: Subject, s': Ledger, o: string)
    requires DistinctIds(s.reservations) && MaySettle(s, r, t) && SettleEffect(s, r, t, subject, s')
    requires s'.reconciled == s.reconciled[ReservationKey(r) := Match]
    requires r.organizationId != o
    ensures Slice(s', o) == Slice(s, o)
  {
    var event := EventOf(t, subject);
    forall x | x in s.reservations && x.reservationId == r.reservationId ensures x.organizationId != o {
      FindMember(s.reservations, x);
      FindMember(s.reservations, r);
    }
    WithStateOfOthers(s.reservations, r.reservationId, t.state, o);
    PickAppended(s.transitions, t, OfTransition, o);
    PickAppended(s.usageEntries, EntryOf(r, t), OfEntry, o);
    PickAppended(s.audit, Emitted(event), OfAudit, o);
    PickAppended(s.outbox, event, OfOutboxEvent, o);
    assert s'.usageEntries == if t.state == Committed then s.usageEntries + [EntryOf(r, t)] else s.usageEntries;
    var k := ReservationKey(r);
    AggregatesUpdated(s.aggregates, k, s'.aggregates[k], o);
    MarksUpdated(s.reconciled, k, Match, o);
    if t.keyDigest.OfKey? {
      BindingsUpdated(s.idempotency, TransitionKey(t), Binding(t.request, t.transitionId), o);
    }
  }

  /* ---------- Admitting ---------- */

  lemma AdmittedOfSlice(c: Ledger, b: Budget, who: Identity, r: Reservation, aggregate: Aggregate)
    requires b.organizationId == r.organizationId == who.organizationId
    requires FindReservation(c.reservations, r.reservationId).None?
    ensures Admitted(Slice(c, b.organizationId), b, who, r, aggregate) ==
            Slice(Admitted(c, b, who, r, aggregate), b.organizationId)
  {
    var o := b.organizationId;
    var event :=
        OutboxEvent(who.organizationId, Caller(who.subjectId), UsageReserved, r.reservationId, r.request, r.createdAt);
    var found := FindReservation(Pick(c.reservations, OfReservation, o), r.reservationId);
    if found.Some? {
      PickHasNoForeigner(c.reservations, o, found.value);
    }
    PickAppended(c.reservations, r, OfReservation, o);
    PickAppended(c.audit, Emitted(event), OfAudit, o);
    PickAppended(c.outbox, event, OfOutboxEvent, o);
    AggregatesUpdated(c.aggregates, KeyOf(b, r.window.index), aggregate, o);
    BindingsUpdated(c.idempotency, ReserveKey(r), Binding(r.request, r.reservationId), o);
  }

  lemma AdmitOfSlice(c: Ledger, b: Budget, who: Identity, r: Reservation)
    requires b.organizationId == r.organizationId == who.organizationId
    requires FindReservation(c.reservations, r.reservationId).None?
    ensures Admit(Slice(c, b.organizationId), b, who, r) == SliceOf(Admit(c, b, who, r), b.organizationId)
  {
    AggregateOfSlice(c, b, r.window.index, r.createdAt);
    var aggregate := AggregateAt(c, b, r.window.index, r.createdAt);
    var reserved := Checked(Plus(aggregate.reserved, r.requested));
    if reserved.Ok? {
      var next := aggregate.(reserved := reserved.value, updatedAt := r.createdAt);
      AdmittedOfSlice(c, b, who, r, next);
      MarkOfSlice(Admitted(c, b, who, r, next), b, r.window.index);
    }
  }

  lemma AdmitOutsideSlice(c: Ledger, who: Identity, r: Reservation, next: Ledger, o: string)
    requires AdmitEffect(c, who, r, next) && next.reconciled == c.reconciled[ReservationKey(r) := Match]
    requires r.organizationId == who.organizationId != o
    ensures Slice(next, o) == Slice(c, o)
  {
    var event := next.outbox[|c.outbox|];
    PickAppended(c.reservations, r, OfReservation, o);
    PickAppended(c.audit, Emitted(event), OfAudit, o);
    PickAppended(c.outbox, event, OfOutboxEvent, o);
    var k := ReservationKey(r);
    AggregatesUpdated(c.aggregates, k, next.aggregates[k], o);
    MarksUpdated(c.reconciled, k, Match, o);
    BindingsUpdated(c.idempotency, ReserveKey(r), Binding(r.request, r.reservationId), o);
  }

  /* ---------- The clock ---------- */

  lemma ClockOfSlice(s: Ledger, o: string, now: int)
    ensures AdvanceClock(Slice(s, o), o, now) == SliceOf(AdvanceClock(s, o, now), o)
  {
    ClockUpdated(s.lastClock, o, now, o);
  }

  lemma ClockOutsideSlice(s: Ledger, organizationId: string, now: int, s': Ledger, o: string)
    requires AdvanceClock(s, organizationId, now) == Ok(s') && organizationId != o
    ensures Slice(s', o) == Slice(s, o)
  {
    ClockUpdated(s.lastClock, organizationId, now, o);
  }

  /* ---------- What other tenants can see ---------- */

  /** Only tenant `actor`'s slice may differ. */
  ghost predicate Elsewhere(s: Ledger, s': Ledger, actor: string) {
    forall o | o != actor :: Slice(s', o) == Slice(s, o)
  }

  lemma SettleElsewhere(s: Ledger, r: Reservation, t: Transition, subject: Subject, s': Ledger)
    requires DistinctIds(s.reservations) && MaySettle(s, r, t) && SettleEffect(s, r, t, subject, s')
    requires s'.reconciled == s.reconciled[ReservationKey(r) := Match]
    ensures Elsewhere(s, s', r.organizationId)
  {
    forall o | o != r.organizationId ensures Slice(s', o) == Slice(s, o) {
      SettleOutsideSlice(s, r, t, subject, s', o);
    }
  }

  lemma AdmitElsewhere(c: Ledger, who: Identity, r: Reservation, next: Ledger)
    requires AdmitEffect(c, who, r, next) && next.reconciled == c.reconciled[ReservationKey(r) := Match]
    requires r.organizationId == who.organizationId
    ensures Elsewhere(c, next, who.organizationId)
  {
    forall o | o != who.organizationId ensures Slice(next, o) == Slice(c, o) {
      AdmitOutsideSlice(c, who, r, next, o);
    }
  }

  lemma ClockElsewhere(s: Ledger, organizationId: string, now: int, s': Ledger)
    requires AdvanceClock(s, organizationId, now) == Ok(s')
    ensures Elsewhere(s, s', organizationId)
  {
    forall o | o != organizationId ensures Slice(s', o) == Slice(s, o) {
      ClockOutsideSlice(s, organizationId, now, s', o);
    }
  }

  lemma DenialElsewhere(s: Ledger, who: Identity, request: Request, reason: Denial, now: int)
    ensures Elsewhere(s, WithDenial(s, who, request, reason, now), who.organizationId)
  {
    forall o | o != who.organizationId ensures Slice(WithDenial(s, who, request, reason, now), o) == Slice(s, o) {
      PickAppended(s.audit, Denied(who.organizationId, who.subjectId, request, reason, now), OfAudit, o);
    }
  }

  lemma MarkElsewhere(s: Ledger, k: AggregateKey)
    ensures Elsewhere(s, s.(reconciled := s.reconciled[k := Match]), k.organizationId)
  {
    forall o | o != k.organizationId ensures Slice(s.(reconciled := s.reconciled[k := Match]), o) == Slice(s, o) {
      MarksUpdated(s.reconciled, k, Match, o);
    }
  }

  lemma ReconciliationElsewhere(s: Ledger, k: AggregateKey, finding: ReconciliationFinding)
    requires finding.organizationId == k.organizationId
    ensures Elsewhere(s, s.(reconciliations := s.reconciliations + [finding], reconciled := s.reconciled[k := Match]),
                      k.organizationId)
  {
    var s' := s.(reconciliations := s.reconciliations + [finding], reconciled := s.reconciled[k := Match]);
    forall o | o != k.organizationId ensures Slice(s', o) == Slice(s, o) {
      MarksUpdated(s.reconciled, k, Match, o);
      PickAppended(s.reconciliations, finding, OfReconciliation, o);
    }
  }

  lemma RetentionElsewhere(s: Ledger, finding: RetentionFinding)
    ensures Elsewhere(s, s.(retentions := s.retentions + [finding]), finding.organizationId)
  {
    forall o | o != finding.organizationId ensures Slice(s.(retentions := s.retentions + [finding]), o) == Slice(s, o) {
      PickAppended(s.retentions, finding, OfRetention, o);
    }
  }

  lemma BudgetElsewhere(s: Ledger, b: Budget)
    ensures Elsewhere(s, s.(budgets := s.budgets[BudgetKey(b.organizationId, b.budgetId) := b]), b.organizationId)
  {
    var s' := s.(budgets := s.budgets[BudgetKey(b.organizationId, b.budgetId) := b]);
    forall o | o != b.organizationId ensures Slice(s', o) == Slice(s, o) {
      BudgetsUpdated(s.budgets, BudgetKey(b.organizationId, b.budgetId), b, o);
    }
  }
}
