/** What holds of every reachable ledger, and how a later ledger of a run relates to an earlier one. */
module LedgerInvariant {
  import opened Results
  import opened Dimensions
  import opened UsageModels
  import opened LedgerSpec

  /* ---------- Budgets and reservations ---------- */

  ghost predicate BudgetsOk(s: Ledger) {
    forall k | k in s.budgets :: k == BudgetKey(s.budgets[k].organizationId, s.budgets[k].budgetId)
  }

  ghost predicate DistinctIds(rs: seq<Reservation>) {
    forall i, j | 0 <= i < j < |rs| :: rs[i].reservationId != rs[j].reservationId
  }

  /** A reservation belongs to the window in which it was created and ends inside it. */
  ghost predicate ReservationOk(s: Ledger, r: Reservation) {
    && BudgetKey(r.organizationId, r.budgetId) in s.budgets
    && r.organizationId in s.lastClock
    && r.createdAt <= s.lastClock[r.organizationId]
    && WindowAt(s.budgets[BudgetKey(r.organizationId, r.budgetId)], r.createdAt) == Ok(r.window)
    && r.createdAt < r.expiresAt <= r.window.end
    && r.reservationId == ReservationId(r.request)
    && r.request.ReserveRequest?
    && r.request.organizationId == r.organizationId
    && r.request.budgetId == r.budgetId
    && r.request.key == r.key
    && r.request.requested == r.requested
  }

  ghost predicate ReservationsOk(s: Ledger) {
    && DistinctIds(s.reservations)
    && forall r | r in s.reservations :: ReservationOk(s, r)
  }

  /* ---------- Transitions and usage entries ---------- */

  /** How transition `t` fits the reservation it settled: commits and releases happen strictly
      before expiry, expiry at or after it. */
  ghost predicate TransitionFits(r: Reservation, t: Transition) {
    && t.state != Reserved
    && r.state == t.state
    && r.organizationId == t.organizationId
    && r.reservationId == t.reservationId
    && t.transitionId == TransitionId(t.request)
    && Le(t.observed, r.requested)
    && (t.state != Committed ==> t.observed == Zero())
    && (t.state == Expired ==>
          && r.expiresAt <= t.occurredAt
          && t.keyDigest == SystemExpiry(t.reservationId)
          && t.request == ExpiryRequest(t.reservationId, t.occurredAt))
    && (t.state != Expired ==>
          && r.createdAt <= t.occurredAt < r.expiresAt
          && t.keyDigest.OfKey?
          && t.request ==
              TransitionRequest(t.organizationId, t.reservationId, t.state, t.keyDigest.key, t.observed, t.reason))
  }

  ghost predicate TransitionOk(s: Ledger, t: Transition) {
    && FindReservation(s.reservations, t.reservationId).Some?
    && TransitionFits(FindReservation(s.reservations, t.reservationId).value, t)
    && t.organizationId in s.lastClock
    && t.occurredAt <= s.lastClock[t.organizationId]
  }

  ghost predicate Settles(ts: seq<Transition>, r: Reservation) {
    exists t | t in ts :: t.reservationId == r.reservationId
  }

  /** Transitions settle distinct reservations, and each tenant's are ordered in time. */
  ghost predicate TransitionOrder(ts: seq<Transition>) {
    forall i, j | 0 <= i < j < |ts| ::
      && ts[i].reservationId != ts[j].reservationId
      && (ts[i].organizationId == ts[j].organizationId ==> ts[i].occurredAt <= ts[j].occurredAt)
  }

  ghost predicate TransitionsOk(s: Ledger) {
    && (forall t | t in s.transitions :: TransitionOk(s, t))
    && (forall r | r in s.reservations && r.state != Reserved :: Settles(s.transitions, r))
    && TransitionOrder(s.transitions)
  }

  function CommittedOnes(ts: seq<Transition>): (r: seq<Transition>)
    ensures forall t :: t in r <==> t in ts && t.state == Committed
  {
    if ts == [] then []
    else
      var last := ts[|ts| - 1];
      assert ts == ts[..|ts| - 1] + [last];
      CommittedOnes(ts[..|ts| - 1]) + if last.state == Committed then [last] else []
  }

  /** Usage entries are exactly the committed transitions, in order. */
  ghost predicate EntriesOk(s: Ledger) {
    var ts := CommittedOnes(s.transitions);
    && |s.usageEntries| == |ts|
    && forall i | 0 <= i < |ts| ::
         && FindReservation(s.reservations, ts[i].reservationId).Some?
         && s.usageEntries[i] == EntryOf(FindReservation(s.reservations, ts[i].reservationId).value, ts[i])
  }

  /* ---------- Idempotency ---------- */

  function ReserveKey(r: Reservation): IdempotencyKey {
    IdempotencyKey(r.organizationId, Reserved, r.key)
  }

  function TransitionKey(t: Transition): IdempotencyKey
    requires t.keyDigest.OfKey?
  {
    IdempotencyKey(t.organizationId, t.state, t.keyDigest.key)
  }

  ghost predicate BindingOk(s: Ledger, k: IdempotencyKey, binding: Binding) {
    match k.kind
    case Reserved =>
      var r := FindReservation(s.reservations, binding.id);
      r.Some? && ReserveKey(r.value) == k && r.value.request == binding.request
    case Expired => false
    case _ =>
      var t := FindTransition(s.transitions, binding.id);
      t.Some? && t.value.keyDigest.OfKey? && TransitionKey(t.value) == k && t.value.request == binding.request
  }

  ghost predicate KeysOk(s: Ledger) {
    && (forall k | k in s.idempotency :: BindingOk(s, k, s.idempotency[k]))
    && (forall r | r in s.reservations ::
          ReserveKey(r) in s.idempotency && s.idempotency[ReserveKey(r)] == Binding(r.request, r.reservationId))
    && (forall t | t in s.transitions && t.keyDigest.OfKey? ::
          TransitionKey(t) in s.idempotency && s.idempotency[TransitionKey(t)] == Binding(t.request, t.transitionId))
  }

  /* ---------- Outbox and audit ---------- */

  function Select(events: seq<OutboxEvent>, reserved: bool): seq<OutboxEvent> {
    if events == [] then []
    else
      var last := events[|events| - 1];
      Select(events[..|events| - 1], reserved) + if (last.kind == UsageReserved) == reserved then [last] else []
  }

  function Emissions(audit: seq<AuditRecord>): seq<OutboxEvent> {
    if audit == [] then []
    else
      var last := audit[|audit| - 1];
      Emissions(audit[..|audit| - 1]) + if last.Emitted? then [last.event] else []
  }

  ghost predicate AnnouncesReservation(e: OutboxEvent, r: Reservation) {
    e == OutboxEvent(r.organizationId, e.subject, UsageReserved, r.reservationId, r.request, r.createdAt)
  }

  /** One event per reservation, one per transition, each kind in order; the audit log is the
      outbox with denials interspersed. */
  ghost predicate LogsOk(s: Ledger) {
    var admissions, settlements := Select(s.outbox, true), Select(s.outbox, false);
    && |admissions| == |s.reservations|
    && (forall i | 0 <= i < |admissions| :: AnnouncesReservation(admissions[i], s.reservations[i]))
    && |settlements| == |s.transitions|
    && (forall i | 0 <= i < |settlements| :: settlements[i] == EventOf(s.transitions[i], settlements[i].subject))
    && Emissions(s.audit) == s.outbox
    && (forall a | a in s.audit && a.Denied? :: a.reason in {BudgetSuspended, BudgetExceeded})
  }

  /* ---------- Aggregates ---------- */

  function CommittedAt(s: Ledger, k: AggregateKey): Dims {
    if k in s.aggregates then s.aggregates[k].committed else Zero()
  }

  function ReservedAt(s: Ledger, k: AggregateKey): Dims {
    if k in s.aggregates then s.aggregates[k].reserved else Zero()
  }

  /** The incrementally maintained totals are what a full recomputation finds. */
  ghost predicate BooksOk(s: Ledger) {
    && (forall k | k in s.aggregates ::
          && BudgetKey(k.organizationId, k.budgetId) in s.budgets
          && k == AggregateKey(s.aggregates[k].organizationId, s.aggregates[k].budgetId, s.aggregates[k].windowIndex))
    && (forall k: AggregateKey, d: nat | d < COUNT ::
          && CommittedAt(s, k)[d] == CommittedIn(s.usageEntries, k, d)
          && ReservedAt(s, k)[d] == ReservedIn(s.reservations, k, d))
  }

  ghost predicate CapsOk(s: Ledger) {
    forall k: AggregateKey, d: nat | d < COUNT ::
      && CommittedIn(s.usageEntries, k, d) + ReservedIn(s.reservations, k, d) <= SAFE_INTEGER_MAX
      && (BudgetKey(k.organizationId, k.budgetId) in s.budgets ==>
            var b := s.budgets[BudgetKey(k.organizationId, k.budgetId)];
            b.enforcement == Hard ==>
              CommittedIn(s.usageEntries, k, d) + ReservedIn(s.reservations, k, d) <= b.limits[d])
  }

  ghost predicate MarksOk(s: Ledger) {
    && (forall k | k in s.reconciled :: s.reconciled[k] == Match)
    && (forall f | f in s.reconciliations :: f.status == Match)
  }

  ghost predicate RecordsOk(s: Ledger) {
    && BudgetsOk(s)
    && ReservationsOk(s)
    && TransitionsOk(s)
    && EntriesOk(s)
  }

  ghost predicate AccountsOk(s: Ledger) {
    && BooksOk(s)
    && CapsOk(s)
    && MarksOk(s)
  }

  ghost predicate Inv(s: Ledger) {
    && RecordsOk(s)
    && KeysOk(s)
    && LogsOk(s)
    && AccountsOk(s)
  }

  /** The ledgers that satisfy the invariant. */
  type SoundLedger = s: Ledger | Inv(s) ghost witness EMPTY

  /* ---------- Evolution ---------- */

  /** A reservation may only leave the reserved state, once; nothing else of it changes. */
  ghost predicate ReservationsEvolve(rs: seq<Reservation>, rs': seq<Reservation>) {
    && |rs| <= |rs'|
    && forall i | 0 <= i < |rs| ::
         && rs'[i] == rs[i].(state := rs'[i].state)
         && (rs[i].state != Reserved ==> rs'[i].state == rs[i].state)
  }

  /** The tenant's clock has reached the end of the window that `k` names. */
  ghost predicate Closed(s: Ledger, k: AggregateKey) {
    && BudgetKey(k.organizationId, k.budgetId) in s.budgets
    && k.organizationId in s.lastClock
    && WindowEnd(s.budgets[BudgetKey(k.organizationId, k.budgetId)], k.windowIndex) <= s.lastClock[k.organizationId]
  }

  /** Windows that were closed in `s` gain neither entries nor reservations. */
  ghost predicate ClosedStayClosed(s: Ledger, s': Ledger) {
    forall k | Closed(s, k) ::
      && (forall i | |s.usageEntries| <= i < |s'.usageEntries| :: EntryKey(s'.usageEntries[i]) != k)
      && (forall i | |s.reservations| <= i < |s'.reservations| :: ReservationKey(s'.reservations[i]) != k)
  }

  ghost predicate LogsGrow(s: Ledger, s': Ledger) {
    && s.transitions <= s'.transitions
    && s.usageEntries <= s'.usageEntries
    && s.audit <= s'.audit
    && s.outbox <= s'.outbox
    && s.reconciliations <= s'.reconciliations
    && s.retentions <= s'.retentions
  }

  ghost predicate Evolves(s: Ledger, s': Ledger) {
    && (forall k | k in s.budgets :: k in s'.budgets && s'.budgets[k] == s.budgets[k])
    && (forall o | o in s.lastClock :: o in s'.lastClock && s.lastClock[o] <= s'.lastClock[o])
    && (forall k | k in s.idempotency :: k in s'.idempotency && s'.idempotency[k] == s.idempotency[k])
    && ReservationsEvolve(s.reservations, s'.reservations)
    && LogsGrow(s, s')
    && ClosedStayClosed(s, s')
  }

  lemma EvolvesIsTransitive(s: Ledger, m: Ledger, s': Ledger)
    requires Evolves(s, m) && Evolves(m, s')
    ensures Evolves(s, s')
  {
    forall k | Closed(s, k) ensures
      && (forall i | |s.usageEntries| <= i < |s'.usageEntries| :: EntryKey(s'.usageEntries[i]) != k)
      && (forall i | |s.reservations| <= i < |s'.reservations| :: ReservationKey(s'.reservations[i]) != k)
    {
      assert Closed(m, k);
      forall i | |s.usageEntries| <= i < |s'.usageEntries| ensures EntryKey(s'.usageEntries[i]) != k {
        if i < |m.usageEntries| {
          assert s'.usageEntries[i] == m.usageEntries[i];
        }
      }
      forall i | |s.reservations| <= i < |s'.reservations| ensures ReservationKey(s'.reservations[i]) != k {
        if i < |m.reservations| {
          assert ReservationKey(s'.reservations[i]) == ReservationKey(m.reservations[i]);
        }
      }
    }
  }
}
