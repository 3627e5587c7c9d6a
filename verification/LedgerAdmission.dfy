/** Admitting a new reservation keeps the invariant; so do the other, smaller updates. */
module LedgerAdmission {
  import opened Results
  import opened Dimensions
  import opened UsageModels
  import opened LedgerSpec
  import opened LedgerInvariant
  import opened LedgerSequences
  import opened LedgerSettlement

  /** There is room for `amounts` under `k`. */
  ghost predicate HasRoom(s: Ledger, b: Budget, k: AggregateKey, amounts: Dims) {
    forall d | 0 <= d < COUNT ::
      && CommittedAt(s, k)[d] + ReservedAt(s, k)[d] + amounts[d] <= SAFE_INTEGER_MAX
      && (b.enforcement == Hard ==> CommittedAt(s, k)[d] + ReservedAt(s, k)[d] + amounts[d] <= b.limits[d])
  }

  ghost predicate MayAdmit(s: Ledger, b: Budget, who: Identity, r: Reservation) {
    && ReservationOk(s, r)
    && b == s.budgets[BudgetKey(r.organizationId, r.budgetId)]
    && b.organizationId == r.organizationId
    && b.budgetId == r.budgetId
    && r.state == Reserved
    && r.organizationId == who.organizationId
    && r.createdAt == s.lastClock[r.organizationId]
    && ReserveKey(r) !in s.idempotency
    && HasRoom(s, b, ReservationKey(r), r.requested)
  }

  ghost predicate AdmitEffect(s: Ledger, who: Identity, r: Reservation, s': Ledger) {
    var k := ReservationKey(r);
    var event :=
      OutboxEvent(who.organizationId, Caller(who.subjectId), UsageReserved, r.reservationId, r.request, r.createdAt);
    && s'.budgets == s.budgets
    && s'.lastClock == s.lastClock
    && s'.reconciliations == s.reconciliations
    && s'.retentions == s.retentions
    && s'.transitions == s.transitions
    && s'.usageEntries == s.usageEntries
    && s'.reservations == s.reservations + [r]
    && s'.idempotency == s.idempotency[ReserveKey(r) := Binding(r.request, r.reservationId)]
    && s'.audit == s.audit + [Emitted(event)]
    && s'.outbox == s.outbox + [event]
    && k in s'.aggregates
    && s'.aggregates == s.aggregates[k := s'.aggregates[k]]
    && k == AggregateKey(s'.aggregates[k].organizationId, s'.aggregates[k].budgetId, s'.aggregates[k].windowIndex)
    && s'.aggregates[k].committed == CommittedAt(s, k)
    && s'.aggregates[k].reserved == Plus(ReservedAt(s, k), r.requested)
  }

  /** A fresh idempotency key means a fresh reservation id: no reservation is ever overwritten. */
  lemma NoSuchReservation(s: Ledger, r: Reservation)
    requires ReservationsOk(s) && KeysOk(s) && ReservationOk(s, r) && ReserveKey(r) !in s.idempotency
    ensures FindReservation(s.reservations, r.reservationId).None?
  {
    forall x | x in s.reservations ensures x.reservationId != r.reservationId {
      assert ReservationOk(s, x);
      assert ReserveKey(x) in s.idempotency;
    }
  }

  lemma AdmittedHasEffect(s: Ledger, b: Budget, who: Identity, r: Reservation, aggregate: Aggregate)
    requires BooksOk(s) && MayAdmit(s, b, who, r) && FindReservation(s.reservations, r.reservationId).None?
    requires aggregate == AggregateAt(s, b, r.window.index, r.createdAt).(
                            reserved := Plus(ReservedAt(s, ReservationKey(r)), r.requested), updatedAt := r.createdAt)
    ensures AdmitEffect(s, who, r, Admitted(s, b, who, r, aggregate))
  {
    var k := ReservationKey(r);
    assert KeyOf(b, r.window.index) == k;
    assert Admitted(s, b, who, r, aggregate).aggregates[k] == aggregate;
  }

  lemma AdmitBook(s: Ledger, who: Identity, r: Reservation, s': Ledger, k: AggregateKey, d: nat)
    requires BooksOk(s) && AdmitEffect(s, who, r, s') && r.state == Reserved && d < COUNT
    ensures CommittedAt(s', k)[d] == CommittedIn(s'.usageEntries, k, d)
    ensures ReservedAt(s', k)[d] == ReservedIn(s'.reservations, k, d)
  {
    hide CommittedIn, ReservedIn;
    ReservedAppended(s.reservations, r, k, d);
    assert CommittedAt(s, k)[d] == CommittedIn(s.usageEntries, k, d);
    assert ReservedAt(s, k)[d] == ReservedIn(s.reservations, k, d);
  }

  lemma AdmitBooks(s: Ledger, b: Budget, who: Identity, r: Reservation, s': Ledger)
    requires BooksOk(s) && MayAdmit(s, b, who, r) && AdmitEffect(s, who, r, s')
    ensures BooksOk(s')
  {
    hide CommittedIn, ReservedIn, CommittedAt, ReservedAt, HasRoom;
    forall k: AggregateKey, d: nat | d < COUNT
      ensures CommittedAt(s', k)[d] == CommittedIn(s'.usageEntries, k, d)
      ensures ReservedAt(s', k)[d] == ReservedIn(s'.reservations, k, d)
    {
      AdmitBook(s, who, r, s', k, d);
    }
  }

  lemma AdmitCaps(s: Ledger, b: Budget, who: Identity, r: Reservation, s': Ledger)
    requires BooksOk(s) && CapsOk(s) && MayAdmit(s, b, who, r) && AdmitEffect(s, who, r, s')
    ensures CapsOk(s')
  {
    forall k: AggregateKey, d: nat | d < COUNT
      ensures CommittedIn(s'.usageEntries, k, d) + ReservedIn(s'.reservations, k, d) <= SAFE_INTEGER_MAX
      ensures BudgetKey(k.organizationId, k.budgetId) in s'.budgets ==>
                s'.budgets[BudgetKey(k.organizationId, k.budgetId)].enforcement == Hard ==>
                  CommittedIn(s'.usageEntries, k, d) + ReservedIn(s'.reservations, k, d) <=
                  s'.budgets[BudgetKey(k.organizationId, k.budgetId)].limits[d]
    {
      ReservedAppended(s.reservations, r, k, d);
      assert CommittedAt(s, k)[d] == CommittedIn(s.usageEntries, k, d);
      assert ReservedAt(s, k)[d] == ReservedIn(s.reservations, k, d);
      assert CommittedIn(s.usageEntries, k, d) + ReservedIn(s.reservations, k, d) <= SAFE_INTEGER_MAX;
    }
  }

  lemma AdmitUnfolds(s: Ledger, b: Budget, who: Identity, r: Reservation, aggregate: Aggregate)
    requires IsSafe(Plus(AggregateAt(s, b, r.window.index, r.createdAt).reserved, r.requested))
    requires aggregate == AggregateAt(s, b, r.window.index, r.createdAt).(
                            reserved := Plus(AggregateAt(s, b, r.window.index, r.createdAt).reserved, r.requested),
                            updatedAt := r.createdAt)
    ensures Admit(s, b, who, r) == MarkReconciled(Admitted(s, b, who, r, aggregate), b, r.window.index)
  {
  }

  lemma MarkAfterAdmitting(s: Ledger, who: Identity, r: Reservation, admitted: Ledger, b: Budget) returns (s': Ledger)
    requires AdmitEffect(s, who, r, admitted) && BooksOk(admitted) && CapsOk(admitted)
    requires admitted.reconciled == s.reconciled
    requires b.organizationId == r.organizationId && b.budgetId == r.budgetId
    ensures MarkReconciled(admitted, b, r.window.index) == Ok(s')
    ensures AdmitEffect(s, who, r, s') && BooksOk(s') && CapsOk(s')
    ensures s'.reconciled == s.reconciled[ReservationKey(r) := Match]
  {
    MarkingMatches(admitted, b, r.window.index);
    var marks := admitted.reconciled[KeyOf(b, r.window.index) := Match];
    MarksAreApart(admitted, marks);
    s' := admitted.(reconciled := marks);
  }

  lemma AdmitSucceeds(s: Ledger, b: Budget, who: Identity, r: Reservation) returns (s': Ledger)
    requires ReservationsOk(s) && KeysOk(s) && BooksOk(s) && CapsOk(s) && MayAdmit(s, b, who, r)
    ensures Admit(s, b, who, r) == Ok(s')
    ensures AdmitEffect(s, who, r, s') && BooksOk(s') && CapsOk(s')
    ensures s'.reconciled == s.reconciled[ReservationKey(r) := Match]
  {
    NoSuchReservation(s, r);
    var before := AggregateAt(s, b, r.window.index, r.createdAt);
    assert before.reserved == ReservedAt(s, ReservationKey(r));
    var aggregate := before.(reserved := Plus(before.reserved, r.requested), updatedAt := r.createdAt);
    AdmittedHasEffect(s, b, who, r, aggregate);
    AdmitUnfolds(s, b, who, r, aggregate);
    var admitted := Admitted(s, b, who, r, aggregate);
    AdmitBooks(s, b, who, r, admitted);
    AdmitCaps(s, b, who, r, admitted);
    s' := MarkAfterAdmitting(s, who, r, admitted, b);
  }

  lemma AdmitKeepsRecords(s: Ledger, b: Budget, who: Identity, r: Reservation, s': Ledger)
    requires ReservationsOk(s) && TransitionsOk(s) && EntriesOk(s)
    requires FindReservation(s.reservations, r.reservationId).None?
    requires MayAdmit(s, b, who, r) && AdmitEffect(s, who, r, s')
    ensures ReservationsOk(s') && TransitionsOk(s') && EntriesOk(s')
  {
    hide FindReservation, HasRoom, CommittedOnes;
    forall x | x in s'.reservations ensures ReservationOk(s', x) {
      assert x == r || ReservationOk(s, x);
    }
    forall i | 0 <= i < |s.reservations| ensures s.reservations[i].reservationId != r.reservationId {
      assert s.reservations[i] in s.reservations;
    }
    forall t | t in s'.transitions ensures TransitionOk(s', t) {
      assert TransitionOk(s, t);
      FindAppended(s.reservations, r, t.reservationId);
    }
    var ts := CommittedOnes(s.transitions);
    forall i | 0 <= i < |ts|
      ensures FindReservation(s'.reservations, ts[i].reservationId) ==
              FindReservation(s.reservations, ts[i].reservationId)
    {
      FindAppended(s.reservations, r, ts[i].reservationId);
    }
  }

  lemma AdmitKeepsKeys(s: Ledger, b: Budget, who: Identity, r: Reservation, s': Ledger)
    requires KeysOk(s) && FindReservation(s.reservations, r.reservationId).None?
    requires MayAdmit(s, b, who, r) && AdmitEffect(s, who, r, s')
    ensures KeysOk(s')
  {
    hide FindReservation, FindTransition, HasRoom, ReservationOk;
    forall k | k in s'.idempotency ensures BindingOk(s', k, s'.idempotency[k]) {
      FindAppended(s.reservations, r, s'.idempotency[k].id);
      assert k == ReserveKey(r) || BindingOk(s, k, s.idempotency[k]);
    }
  }

  lemma AdmitKeepsLogs(s: Ledger, b: Budget, who: Identity, r: Reservation, s': Ledger)
    requires LogsOk(s) && MayAdmit(s, b, who, r) && AdmitEffect(s, who, r, s')
    ensures LogsOk(s')
  {
    var event := s'.outbox[|s.outbox|];
    SelectAppended(s.outbox, event, true);
    SelectAppended(s.outbox, event, false);
    EmissionsAppended(s.audit, Emitted(event));
    var admissions := Select(s.outbox, true);
    forall i | 0 <= i < |admissions| ensures AnnouncesReservation(admissions[i], s'.reservations[i]) {
      assert AnnouncesReservation(admissions[i], s.reservations[i]);
    }
  }

  lemma AdmitKeepsMarks(s: Ledger, who: Identity, r: Reservation, s': Ledger)
    requires BudgetsOk(s) && MarksOk(s) && AdmitEffect(s, who, r, s')
    requires s'.reconciled == s.reconciled[ReservationKey(r) := Match]
    ensures BudgetsOk(s') && MarksOk(s')
  {
  }

  lemma AdmitKeepsInv(s: Ledger, b: Budget, who: Identity, r: Reservation, s': Ledger)
    requires Inv(s) && MayAdmit(s, b, who, r) && AdmitEffect(s, who, r, s')
    requires BooksOk(s') && CapsOk(s') && s'.reconciled == s.reconciled[ReservationKey(r) := Match]
    ensures Inv(s')
  {
    NoSuchReservation(s, r);
    AdmitKeepsRecords(s, b, who, r, s');
    AdmitKeepsKeys(s, b, who, r, s');
    AdmitKeepsLogs(s, b, who, r, s');
    AdmitKeepsMarks(s, who, r, s');
  }

  /** A new reservation lies in the current window, which is still open. */
  lemma AdmitEvolves(s: Ledger, b: Budget, who: Identity, r: Reservation, s': Ledger)
    requires MayAdmit(s, b, who, r) && AdmitEffect(s, who, r, s')
    ensures Evolves(s, s')
  {
    assert r.window.end == WindowEnd(b, r.window.index);
  }

  lemma AdmitKeeps(s: SoundLedger, b: Budget, who: Identity, r: Reservation) returns (s': SoundLedger)
    requires MayAdmit(s, b, who, r)
    ensures Admit(s, b, who, r) == Ok(s')
    ensures AdmitEffect(s, who, r, s')
    ensures s'.reconciled == s.reconciled[ReservationKey(r) := Match]
    ensures Evolves(s, s')
  {
    var admitted := AdmitSucceeds(s, b, who, r);
    AdmitKeepsInv(s, b, who, r, admitted);
    AdmitEvolves(s, b, who, r, admitted);
    s' := admitted;
  }

  /* ---------- The smaller updates ---------- */

  lemma TickKeepsRecords(s: Ledger, s': Ledger, organizationId: string, now: int)
    requires BudgetsOk(s) && ReservationsOk(s) && TransitionsOk(s) && EntriesOk(s)
    requires organizationId in s.lastClock ==> s.lastClock[organizationId] <= now
    requires s' == s.(lastClock := s.lastClock[organizationId := now])
    ensures BudgetsOk(s') && ReservationsOk(s') && TransitionsOk(s') && EntriesOk(s')
  {
    forall r | r in s'.reservations ensures ReservationOk(s', r) {
      assert ReservationOk(s, r);
    }
    forall t | t in s'.transitions ensures TransitionOk(s', t) {
      assert TransitionOk(s, t);
    }
    assert forall r | r in s.reservations && r.state != Reserved :: Settles(s.transitions, r);
  }

  /** Key bindings, logs and books do not depend on the clock, the marks or the findings. */
  lemma SameRecords(s: Ledger, s': Ledger)
    requires s'.budgets == s.budgets && s'.reservations == s.reservations && s'.transitions == s.transitions
    requires s'.usageEntries == s.usageEntries && s'.aggregates == s.aggregates && s'.idempotency == s.idempotency
    ensures KeysOk(s) ==> KeysOk(s')
    ensures BooksOk(s) ==> BooksOk(s')
    ensures CapsOk(s) ==> CapsOk(s')
  {
    if KeysOk(s) {
      forall k | k in s'.idempotency ensures BindingOk(s', k, s'.idempotency[k]) {
        assert BindingOk(s, k, s.idempotency[k]);
      }
    }
    if BooksOk(s) {
      forall k: AggregateKey, d: nat | d < COUNT
        ensures CommittedAt(s', k)[d] == CommittedIn(s'.usageEntries, k, d)
        ensures ReservedAt(s', k)[d] == ReservedIn(s'.reservations, k, d)
      {
        assert CommittedAt(s, k)[d] == CommittedIn(s.usageEntries, k, d);
        assert ReservedAt(s, k)[d] == ReservedIn(s.reservations, k, d);
      }
    }
  }

  lemma TickKeeps(s: SoundLedger, s': Ledger, organizationId: string, now: int)
    requires AdvanceClock(s, organizationId, now) == Ok(s')
    ensures Inv(s')
    ensures Evolves(s, s')
  {
    hide ReservationsOk, TransitionsOk, EntriesOk, KeysOk, BooksOk, CapsOk;
    TickKeepsRecords(s, s', organizationId, now);
    SameRecords(s, s');
    assert LogsOk(s') && MarksOk(s');
  }

  lemma DenialKeeps(s: SoundLedger, who: Identity, request: Request, reason: Denial, now: int)
    requires reason in {BudgetSuspended, BudgetExceeded}
    ensures Inv(WithDenial(s, who, request, reason, now))
    ensures Evolves(s, WithDenial(s, who, request, reason, now))
  {
    hide ReservationsOk, TransitionsOk, EntriesOk, KeysOk, BooksOk, CapsOk;
    var s' := WithDenial(s, who, request, reason, now);
    EmissionsAppended(s.audit, Denied(who.organizationId, who.subjectId, request, reason, now));
    StillRecorded(s, s');
    SameRecords(s, s');
  }

  lemma StillRecorded(s: Ledger, s': Ledger)
    requires BudgetsOk(s) && ReservationsOk(s) && TransitionsOk(s) && EntriesOk(s)
    requires s'.budgets == s.budgets && s'.reservations == s.reservations && s'.transitions == s.transitions
    requires s'.usageEntries == s.usageEntries && s'.lastClock == s.lastClock
    ensures BudgetsOk(s') && ReservationsOk(s') && TransitionsOk(s') && EntriesOk(s')
  {
    forall r | r in s'.reservations ensures ReservationOk(s', r) {
      assert ReservationOk(s, r);
    }
    forall t | t in s'.transitions ensures TransitionOk(s', t) {
      assert TransitionOk(s, t);
    }
  }

  /** Marks that match, matching findings and retention findings change nothing else. */
  lemma FindingKeeps(s: SoundLedger, s': Ledger)
    requires s' == s.(reconciled := s'.reconciled, reconciliations := s'.reconciliations, retentions := s'.retentions)
    requires MarksOk(s') && s.reconciliations <= s'.reconciliations && s.retentions <= s'.retentions
    ensures Inv(s')
    ensures Evolves(s, s')
  {
    hide ReservationsOk, TransitionsOk, EntriesOk, KeysOk, BooksOk, CapsOk;
    StillRecorded(s, s');
    SameRecords(s, s');
    assert LogsOk(s');
  }

  lemma AddBudgetKeepsRecords(s: Ledger, b: Budget, s': Ledger)
    requires BudgetsOk(s) && ReservationsOk(s) && TransitionsOk(s) && EntriesOk(s)
    requires BudgetKey(b.organizationId, b.budgetId) !in s.budgets
    requires s' == s.(budgets := s.budgets[BudgetKey(b.organizationId, b.budgetId) := b])
    ensures BudgetsOk(s') && ReservationsOk(s') && TransitionsOk(s') && EntriesOk(s')
  {
    forall r | r in s'.reservations ensures ReservationOk(s', r) {
      assert ReservationOk(s, r);
    }
    forall t | t in s'.transitions ensures TransitionOk(s', t) {
      assert TransitionOk(s, t);
    }
  }

  /** A budget that is being added has no usage yet, so its limits hold. */
  lemma AddBudgetKeepsAccounts(s: Ledger, b: Budget, s': Ledger)
    requires BooksOk(s) && CapsOk(s)
    requires BudgetKey(b.organizationId, b.budgetId) !in s.budgets
    requires s' == s.(budgets := s.budgets[BudgetKey(b.organizationId, b.budgetId) := b])
    ensures BooksOk(s') && CapsOk(s')
  {
    forall k: AggregateKey, d: nat | d < COUNT
      ensures CommittedAt(s', k)[d] == CommittedIn(s'.usageEntries, k, d)
      ensures ReservedAt(s', k)[d] == ReservedIn(s'.reservations, k, d)
      ensures BudgetKey(k.organizationId, k.budgetId) == BudgetKey(b.organizationId, b.budgetId) ==>
                CommittedIn(s'.usageEntries, k, d) + ReservedIn(s'.reservations, k, d) == 0
    {
      assert CommittedAt(s, k)[d] == CommittedIn(s.usageEntries, k, d);
      assert ReservedAt(s, k)[d] == ReservedIn(s.reservations, k, d);
    }
  }

  lemma AddBudgetKeepsTheRest(s: Ledger, b: Budget, s': Ledger)
    requires KeysOk(s) && LogsOk(s) && MarksOk(s)
    requires s' == s.(budgets := s.budgets[BudgetKey(b.organizationId, b.budgetId) := b])
    ensures KeysOk(s') && LogsOk(s') && MarksOk(s')
  {
    forall k | k in s'.idempotency ensures BindingOk(s', k, s'.idempotency[k]) {
      assert BindingOk(s, k, s.idempotency[k]);
    }
  }

  lemma AddBudgetKeeps(s: SoundLedger, b: Budget, s': Ledger)
    requires BudgetKey(b.organizationId, b.budgetId) !in s.budgets
    requires s' == s.(budgets := s.budgets[BudgetKey(b.organizationId, b.budgetId) := b])
    ensures Inv(s')
    ensures Evolves(s, s')
  {
    hide ReservationsOk, TransitionsOk, EntriesOk, KeysOk, BooksOk, CapsOk, LogsOk;
    AddBudgetKeepsRecords(s, b, s');
    AddBudgetKeepsAccounts(s, b, s');
    AddBudgetKeepsTheRest(s, b, s');
  }
}
