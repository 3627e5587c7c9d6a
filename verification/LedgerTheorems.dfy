/** What the ledger guarantees over whole runs from the empty ledger. */
module LedgerTheorems {
  import opened Results
  import opened Dimensions
  import opened UsageModels
  import opened LedgerSpec
  import opened LedgerInvariant
  import opened LedgerSequences
  import opened LedgerRuns

  /* ---------- The index, the caps, and what cannot fail ---------- */

  /** In every reachable ledger the stored totals of every window of every budget are what a
      recomputation from usage entries and live reservations gives, or zero where none are stored. */
  lemma IndexEqualsRecomputation(es: seq<Event>, b: Budget, index: nat, now: int)
    ensures var s := Run(EMPTY, es);
            && Recomputed(s, b, index, now).Ok?
            && Recomputed(s, b, index, now).value.committed == AggregateAt(s, b, index, now).committed
            && Recomputed(s, b, index, now).value.reserved == AggregateAt(s, b, index, now).reserved
  {
    hide Inv;
    var s := Reach(es);
    RecomputationIsSound(s, b, index, now);
  }

  /** No run ever records a mismatch, reports one, or waits for a window reset. */
  lemma NeverMismatched(es: seq<Event>, b: Budget, index: nat)
    ensures var s := Run(EMPTY, es);
            && (forall k | k in s.reconciled :: s.reconciled[k] == Match)
            && (forall f | f in s.reconciliations :: f.status == Match)
            && BudgetState(s, b, index) != Ok(ResetPending)
  {
    hide RecordsOk, KeysOk, LogsOk, Evolves, BudgetState;
    var s := Reach(es);
    BudgetStateIsSound(s, b, index);
    assert MarksOk(s);
  }

  /** In every reachable ledger committed plus reserved of every window of every budget, advisory
      ones included, is a safe integer in all dimensions, so the state of a budget can always be
      computed. */
  lemma TotalsAreSafe(es: seq<Event>, b: Budget, index: nat)
    ensures var s := Run(EMPTY, es);
            var aggregate := AggregateAt(s, b, index, 0);
            && (forall d | 0 <= d < COUNT :: aggregate.committed[d] + aggregate.reserved[d] <= SAFE_INTEGER_MAX)
            && BudgetState(s, b, index).Ok?
  {
    hide RecordsOk, KeysOk, LogsOk, Evolves, BudgetState, Step;
    var s := Reach(es);
    BudgetStateIsSound(s, b, index);
    BookedTotalIsSafe(s, KeyOf(b, index));
    SafeAt(s, b, index);
  }

  lemma SafeAt(s: Ledger, b: Budget, index: nat)
    requires IsSafe(Plus(CommittedAt(s, KeyOf(b, index)), ReservedAt(s, KeyOf(b, index))))
    ensures var aggregate := AggregateAt(s, b, index, 0);
            forall d | 0 <= d < COUNT :: aggregate.committed[d] + aggregate.reserved[d] <= SAFE_INTEGER_MAX
  {
    var aggregate := AggregateAt(s, b, index, 0);
    forall d | 0 <= d < COUNT ensures aggregate.committed[d] + aggregate.reserved[d] <= SAFE_INTEGER_MAX {
      assert Plus(CommittedAt(s, KeyOf(b, index)), ReservedAt(s, KeyOf(b, index)))[d] <= SAFE_INTEGER_MAX;
    }
  }

  lemma ReconcileReportsMatch(es: seq<Event>, who: Identity, budgetId: string, now: int, fails: bool)
    ensures var response := Step(Run(EMPTY, es), Event(Reconcile(who, budgetId, now), fails)).1;
            response.ReconciliationShown? ==> response.reconciliation.status == Match
  {
    hide Inv, Evolves, ReconcileStep;
    var s := Reach(es);
    var _ := ReconcileKeeps(s, who, budgetId, now, fails);
  }

  /** Through any mix of reservations, partial commits, releases and expiries, a hard budget is
      never overbooked in any dimension of any of its windows. */
  lemma HardCapsHold(es: seq<Event>, k: BudgetKey, index: nat, d: nat)
    requires k in Run(EMPTY, es).budgets && d < COUNT
    requires Run(EMPTY, es).budgets[k].enforcement == Hard
    ensures var s := Run(EMPTY, es);
            var aggregate := AggregateAt(s, s.budgets[k], index, 0);
            aggregate.committed[d] + aggregate.reserved[d] <= s.budgets[k].limits[d]
  {
    hide RecordsOk, KeysOk, LogsOk, AccountsOk, Evolves, Step;
    var s := Reach(es);
    HardCapOf(s, k, index, d);
  }

  lemma HardCapOf(s: Ledger, k: BudgetKey, index: nat, d: nat)
    requires RecordsOk(s) && AccountsOk(s) && k in s.budgets && d < COUNT && s.budgets[k].enforcement == Hard
    ensures var aggregate := AggregateAt(s, s.budgets[k], index, 0);
            aggregate.committed[d] + aggregate.reserved[d] <= s.budgets[k].limits[d]
  {
    var key := KeyOf(s.budgets[k], index);
    assert CommittedAt(s, key)[d] == CommittedIn(s.usageEntries, key, d);
    assert ReservedAt(s, key)[d] == ReservedIn(s.reservations, key, d);
    assert BudgetKey(key.organizationId, key.budgetId) in s.budgets;
  }

  /** No operation in any run hits a missing key or drives a counter below zero, and only a
      request for new usage can overflow. */
  lemma NoInternalFailure(es: seq<Event>, e: Event)
    ensures var response := Step(Run(EMPTY, es), e).1;
            && response != Refused(KeyMissing)
            && response != Refused(CounterUnderflow)
            && (e.op.Commit? || e.op.Release? || e.op.Reconcile? ==> response != Refused(DimensionOverflow))
  {
    hide Inv, Evolves, AddBudgetStep, ReserveStep, CommitStep, TransitionStep, EvaluateStep, ReconcileStep,
        RetentionStep;
    var s := Reach(es);
    var _ := StepKeeps(s, e);
    match e.op
    case Commit(who, id, key, observed, now) => var _ := CommitKeeps(s, who, id, key, observed, now, e.storeFails);
    case Release(who, id, key, reason, now) =>
      var _ := TransitionKeeps(s, who, id, key, Zero(), Released, reason, now, e.storeFails);
    case Reconcile(who, budgetId, now) => var _ := ReconcileKeeps(s, who, budgetId, now, e.storeFails);
    case _ =>
  }

  /* ---------- Time ---------- */

  /** Commits and releases happen while the reservation lives, inside its window; expiry happens
      only once it is over. */
  ghost predicate Timely(r: Reservation, t: Transition) {
    && r.reservationId == t.reservationId
    && r.state == t.state
    && r.createdAt < r.expiresAt <= r.window.end
    && (if t.state == Expired then r.expiresAt <= t.occurredAt else r.createdAt <= t.occurredAt < r.expiresAt)
  }

  /** Every transition is timely, and each tenant's are recorded in time order. */
  lemma TransitionsAreTimely(es: seq<Event>, i: nat)
    requires i < |Run(EMPTY, es).transitions|
    ensures var s := Run(EMPTY, es); exists r | r in s.reservations :: Timely(r, s.transitions[i])
    ensures var ts := Run(EMPTY, es).transitions;
            forall j | i < j < |ts| && ts[j].organizationId == ts[i].organizationId ::
              ts[i].occurredAt <= ts[j].occurredAt
  {
    hide RecordsOk, KeysOk, LogsOk, AccountsOk, Evolves, Step;
    var s := Reach(es);
    TransitionIsTimely(s, i);
  }

  lemma TransitionIsTimely(s: Ledger, i: nat)
    requires RecordsOk(s) && i < |s.transitions|
    ensures exists r | r in s.reservations :: Timely(r, s.transitions[i])
    ensures forall j | i < j < |s.transitions| && s.transitions[j].organizationId == s.transitions[i].organizationId ::
              s.transitions[i].occurredAt <= s.transitions[j].occurredAt
  {
    var t := s.transitions[i];
    assert TransitionOk(s, t);
    var r := FindReservation(s.reservations, t.reservationId).value;
    assert ReservationOk(s, r);
    assert Timely(r, t);
  }

  /** Usage is booked in the window in which it was recorded. */
  lemma UsageIsBookedWhereItHappened(es: seq<Event>, e: UsageEntry)
    requires e in Run(EMPTY, es).usageEntries
    ensures var s := Run(EMPTY, es);
            && BudgetKey(e.organizationId, e.budgetId) in s.budgets
            && var window := WindowAt(s.budgets[BudgetKey(e.organizationId, e.budgetId)], e.recordedAt);
               window.Ok? && window.value.index == e.windowIndex
  {
    hide RecordsOk, KeysOk, LogsOk, AccountsOk, Evolves, Step;
    var s := Reach(es);
    EntryIsInItsWindow(s, e);
  }

  lemma EntryIsInItsWindow(s: Ledger, e: UsageEntry)
    requires RecordsOk(s) && e in s.usageEntries
    ensures BudgetKey(e.organizationId, e.budgetId) in s.budgets
    ensures WindowAt(s.budgets[BudgetKey(e.organizationId, e.budgetId)], e.recordedAt).Ok?
    ensures WindowAt(s.budgets[BudgetKey(e.organizationId, e.budgetId)], e.recordedAt).value.index == e.windowIndex
  {
    var i :| 0 <= i < |s.usageEntries| && s.usageEntries[i] == e;
    var t := CommittedOnes(s.transitions)[i];
    assert TransitionOk(s, t);
    var r := FindReservation(s.reservations, t.reservationId).value;
    assert ReservationOk(s, r);
    WindowIsUnique(s.budgets[BudgetKey(r.organizationId, r.budgetId)], t.occurredAt, r.window.index);
  }

  /** Once a tenant's clock has reached the end of a window, no later step of the run adds usage
      to that window or changes its committed totals. */
  lemma ClosedWindowsAreFrozen(es: seq<Event>, more: seq<Event>, k: AggregateKey, d: nat)
    requires Closed(Run(EMPTY, es), k) && d < COUNT
    ensures var s, s' := Run(EMPTY, es), Run(Run(EMPTY, es), more);
            && (forall i | |s.usageEntries| <= i < |s'.usageEntries| :: EntryKey(s'.usageEntries[i]) != k)
            && CommittedAt(s', k)[d] == CommittedAt(s, k)[d]
  {
    hide RecordsOk, KeysOk, LogsOk, AccountsOk, Evolves, Step;
    var s := Reach(es);
    var s' := RunKeeps(s, more);
    FrozenBetween(s, s', k, d);
  }

  lemma FrozenBetween(s: Ledger, s': Ledger, k: AggregateKey, d: nat)
    requires AccountsOk(s) && AccountsOk(s') && Evolves(s, s') && Closed(s, k) && d < COUNT
    ensures forall i | |s.usageEntries| <= i < |s'.usageEntries| :: EntryKey(s'.usageEntries[i]) != k
    ensures CommittedAt(s', k)[d] == CommittedAt(s, k)[d]
  {
    CommittedExtended(s.usageEntries, s'.usageEntries, k, d);
    BooksAgree(s, k, d);
    BooksAgree(s', k, d);
  }

  lemma BooksAgree(s: Ledger, k: AggregateKey, d: nat)
    requires BooksOk(s) && d < COUNT
    ensures CommittedAt(s, k)[d] == CommittedIn(s.usageEntries, k, d)
    ensures ReservedAt(s, k)[d] == ReservedIn(s.reservations, k, d)
  {
  }

  /** The next published step of the tenant that runs the expiry loop empties what is reserved
      in its closed windows, and it stays empty for the rest of the run. */
  lemma ClosedWindowsDrain(es: seq<Event>, e: Event, more: seq<Event>, k: AggregateKey, d: nat)
    requires Expires(e.op) && e.op.who.organizationId == k.organizationId && d < COUNT
    requires Step(Run(EMPTY, es), e).0 != Run(EMPTY, es)
    requires Closed(Step(Run(EMPTY, es), e).0, k)
    ensures ReservedAt(Run(Step(Run(EMPTY, es), e).0, more), k)[d] == 0
  {
    hide RecordsOk, KeysOk, LogsOk, AccountsOk, Evolves, Step, CaughtUp, Closed;
    var s := Reach(es);
    var s' := StepKeeps(s, e);
    var s'' := RunKeeps(s', more);
    DrainedBetween(s', s'', k, e.op.now, d);
  }

  ghost predicate Drained(s: Ledger, k: AggregateKey) {
    forall r | r in s.reservations && r.state == Reserved :: ReservationKey(r) != k
  }

  lemma DrainedBetween(s: Ledger, s': Ledger, k: AggregateKey, now: int, d: nat)
    requires RecordsOk(s) && AccountsOk(s') && Evolves(s, s') && Closed(s, k) && CaughtUp(s, k.organizationId, now)
    requires d < COUNT
    ensures ReservedAt(s', k)[d] == 0
  {
    CaughtUpMeansDrained(s, k, now);
    StaysDrained(s, s', k);
    NothingReserved(s'.reservations, k, d);
    BooksAgree(s', k, d);
  }

  lemma CaughtUpMeansDrained(s: Ledger, k: AggregateKey, now: int)
    requires RecordsOk(s) && Closed(s, k) && CaughtUp(s, k.organizationId, now)
    ensures Drained(s, k)
  {
    forall r | r in s.reservations && r.state == Reserved ensures ReservationKey(r) != k {
      assert ReservationOk(s, r);
    }
  }

  lemma StaysDrained(s: Ledger, s': Ledger, k: AggregateKey)
    requires Evolves(s, s') && Closed(s, k) && Drained(s, k)
    ensures Drained(s', k)
  {
    forall r | r in s'.reservations && r.state == Reserved ensures ReservationKey(r) != k {
      var i :| 0 <= i < |s'.reservations| && s'.reservations[i] == r;
      if i < |s.reservations| {
        assert s.reservations[i] in s.reservations;
      }
    }
  }

  /* ---------- Lifecycle ---------- */

  /** Extending a run only appends: every log keeps what it had, reservations keep everything
      but their state, and settled ones keep that too. */
  lemma HistoryOnlyGrows(es: seq<Event>, more: seq<Event>)
    ensures var s, s' := Run(EMPTY, es), Run(Run(EMPTY, es), more);
            && LogsGrow(s, s')
            && ReservationsEvolve(s.reservations, s'.reservations)
            && (forall k | k in s.budgets :: k in s'.budgets && s'.budgets[k] == s.budgets[k])
            && (forall k | k in s.idempotency :: k in s'.idempotency && s'.idempotency[k] == s.idempotency[k])
            && (forall o | o in s.lastClock :: o in s'.lastClock && s.lastClock[o] <= s'.lastClock[o])
  {
    hide Inv, Step, ReservationsEvolve, LogsGrow, ClosedStayClosed;
    var s := Reach(es);
    var _ := RunKeeps(s, more);
  }

  /** Exactly the settled reservations have a transition, in the same state, and no two
      transitions name the same reservation. */
  ghost predicate SettledOnce(ts: seq<Transition>, r: Reservation) {
    && (r.state != Reserved <==> exists i :: 0 <= i < |ts| && ts[i].reservationId == r.reservationId)
    && (forall i | 0 <= i < |ts| && ts[i].reservationId == r.reservationId :: ts[i].state == r.state)
    && (forall i, j | 0 <= i < j < |ts| :: ts[i].reservationId != ts[j].reservationId)
  }

  lemma SettledExactlyOnce(es: seq<Event>, r: Reservation)
    requires r in Run(EMPTY, es).reservations
    ensures SettledOnce(Run(EMPTY, es).transitions, r)
  {
    hide RecordsOk, KeysOk, LogsOk, AccountsOk, Evolves, Step;
    var s := Reach(es);
    MemberIsSettledOnce(s, r);
  }

  lemma MemberIsSettledOnce(s: Ledger, r: Reservation)
    requires RecordsOk(s) && r in s.reservations
    ensures SettledOnce(s.transitions, r)
  {
    var ts := s.transitions;
    FindMember(s.reservations, r);
    forall i | 0 <= i < |ts| && ts[i].reservationId == r.reservationId ensures ts[i].state == r.state != Reserved {
      assert TransitionOk(s, ts[i]);
    }
    if r.state != Reserved {
      assert Settles(ts, r);
      var t :| t in ts && t.reservationId == r.reservationId;
      var i :| 0 <= i < |ts| && ts[i] == t;
    }
  }

  /** Entry `e` books what transition `t` committed. */
  ghost predicate Books(e: UsageEntry, t: Transition) {
    && e.organizationId == t.organizationId
    && e.reservationId == t.reservationId
    && e.dimensions == t.observed
    && e.recordedAt == t.occurredAt
  }

  /** Usage entries are the committed transitions, in order, with the committed amounts. */
  lemma UsageIsWhatWasCommitted(es: seq<Event>)
    ensures var s := Run(EMPTY, es);
            var committed := CommittedOnes(s.transitions);
            && |s.usageEntries| == |committed|
            && forall i | 0 <= i < |committed| :: Books(s.usageEntries[i], committed[i])
  {
    hide RecordsOk, KeysOk, LogsOk, AccountsOk, Evolves, Step;
    var s := Reach(es);
    EntriesBookCommits(s);
  }

  lemma EntriesBookCommits(s: Ledger)
    requires RecordsOk(s)
    ensures |s.usageEntries| == |CommittedOnes(s.transitions)|
    ensures forall i | 0 <= i < |s.usageEntries| :: Books(s.usageEntries[i], CommittedOnes(s.transitions)[i])
  {
    var committed := CommittedOnes(s.transitions);
    forall i | 0 <= i < |committed| ensures Books(s.usageEntries[i], committed[i]) {
      assert TransitionOk(s, committed[i]);
    }
  }

  /** The outbox announces each reservation once and each transition once, in order; it is the
      audit log without its denials. */
  lemma OutboxIsExact(es: seq<Event>)
    ensures var s := Run(EMPTY, es);
            && Emissions(s.audit) == s.outbox
            && |s.outbox| == |s.reservations| + |s.transitions|
            && |Select(s.outbox, true)| == |s.reservations|
            && (forall i | 0 <= i < |s.reservations| ::
                AnnouncesReservation(Select(s.outbox, true)[i], s.reservations[i]))
            && |Select(s.outbox, false)| == |s.transitions|
            && (forall i | 0 <= i < |s.transitions| ::
                  Select(s.outbox, false)[i] == EventOf(s.transitions[i], Select(s.outbox, false)[i].subject))
  {
    hide RecordsOk, KeysOk, AccountsOk, Evolves, Step;
    var s := Reach(es);
    assert LogsOk(s);
    SelectsPartition(s.outbox);
  }

  lemma {:induction false} SelectsPartition(events: seq<OutboxEvent>)
    ensures |Select(events, true)| + |Select(events, false)| == |events|
  {
    if events != [] {
      SelectsPartition(events[..|events| - 1]);
    }
  }
}
