/** The usage ledger as the object it is: every operation works in place on a private copy of the
    published state, and the copy becomes the published state only if the store accepts it. Each
    method is proved to do what the corresponding step function of `LedgerSpec` says, so what
    holds of runs of steps holds of the object. */
module UsageLedgers {
  import opened Results
  import opened Dimensions
  import opened UsageModels
  import opened LedgerSpec
  import opened LedgerInvariant
  import opened LedgerSequences
  import S = LedgerSpec

  class LedgerState {
    var budgets: map<BudgetKey, Budget>
    var reservations: seq<Reservation>
    var transitions: seq<Transition>
    var usageEntries: seq<UsageEntry>
    var aggregates: map<AggregateKey, Aggregate>
    var idempotency: map<IdempotencyKey, Binding>
    var audit: seq<AuditRecord>
    var outbox: seq<OutboxEvent>
    var reconciliations: seq<ReconciliationFinding>
    var retentions: seq<RetentionFinding>
    var lastClock: map<string, int>
    var reconciled: map<AggregateKey, Status>

    constructor (values: Ledger)
      ensures View() == values
    {
      budgets, reservations, transitions := values.budgets, values.reservations, values.transitions;
      usageEntries, aggregates, idempotency := values.usageEntries, values.aggregates, values.idempotency;
      audit, outbox, reconciliations := values.audit, values.outbox, values.reconciliations;
      retentions, lastClock, reconciled := values.retentions, values.lastClock, values.reconciled;
    }

    /** The field values; two states are equal when these are. */
    function View(): Ledger
      reads this
    {
      Ledger(budgets, reservations, transitions, usageEntries, aggregates, idempotency, audit, outbox,
             reconciliations, retentions, lastClock, reconciled)
    }

    method Copy() returns (copy: LedgerState)
      ensures fresh(copy) && copy.View() == View()
    {
      copy := new LedgerState(View());
    }
  }

  /** A method that works on a candidate either raises the code that the step function gives, or
      leaves the candidate as the step function says. */
  ghost predicate Does(result: Result<Ledger, Denial>, outcome: Result<(), Denial>, after: Ledger) {
    match result
    case Ok(next) => outcome.Ok? && after == next
    case Err(code) => outcome == Err(code)
  }

  /* ---------- Sums that are checked at every addition ---------- */

  lemma TotalOfTwo(a: Dims, b: Dims)
    ensures Total([a, b]) == Plus(a, b)
  {
    assert [a, b][..1] == [a];
    assert Total([a]) == Plus(Total([a][..0]), a) == a;
  }

  lemma TotalOfThree(a: Dims, b: Dims, c: Dims)
    ensures Total([a, b, c]) == Plus(Plus(a, b), c)
  {
    assert [a, b, c][..2] == [a, b];
    TotalOfTwo(a, b);
  }

  lemma {:induction false} CommittedGrows(es: seq<UsageEntry>, n: nat, k: AggregateKey, d: nat)
    requires n <= |es| && d < COUNT
    ensures CommittedIn(es[..n], k, d) <= CommittedIn(es, k, d)
    decreases |es| - n
  {
    if n == |es| {
      assert es[..n] == es;
    } else {
      CommittedGrows(es, n + 1, k, d);
      assert es[..n + 1][..n] == es[..n];
    }
  }

  lemma {:induction false} ReservedGrows(rs: seq<Reservation>, n: nat, k: AggregateKey, d: nat)
    requires n <= |rs| && d < COUNT
    ensures ReservedIn(rs[..n], k, d) <= ReservedIn(rs, k, d)
    decreases |rs| - n
  {
    if n == |rs| {
      assert rs[..n] == rs;
    } else {
      ReservedGrows(rs, n + 1, k, d);
      assert rs[..n + 1][..n] == rs[..n];
    }
  }

  /** A partial sum over the safe maximum means the whole sum is over it. */
  lemma CommittedOverflows(es: seq<UsageEntry>, n: nat, k: AggregateKey)
    requires n <= |es| && !IsSafe(CommittedTotals(es[..n], k))
    ensures !IsSafe(CommittedTotals(es, k))
  {
    var d :| 0 <= d < COUNT && CommittedTotals(es[..n], k)[d] > SAFE_INTEGER_MAX;
    CommittedGrows(es, n, k, d);
    assert CommittedTotals(es, k)[d] > SAFE_INTEGER_MAX;
  }

  lemma ReservedOverflows(rs: seq<Reservation>, n: nat, k: AggregateKey)
    requires n <= |rs| && !IsSafe(ReservedTotals(rs[..n], k))
    ensures !IsSafe(ReservedTotals(rs, k))
  {
    var d :| 0 <= d < COUNT && ReservedTotals(rs[..n], k)[d] > SAFE_INTEGER_MAX;
    ReservedGrows(rs, n, k, d);
    assert ReservedTotals(rs, k)[d] > SAFE_INTEGER_MAX;
  }

  lemma CommittedTotalsStep(es: seq<UsageEntry>, n: nat, k: AggregateKey)
    requires n < |es|
    ensures CommittedTotals(es[..n + 1], k) ==
            if EntryKey(es[n]) == k
            then Plus(CommittedTotals(es[..n], k), es[n].dimensions) else CommittedTotals(es[..n], k)
  {
    assert es[..n + 1] == es[..n] + [es[n]];
    forall d | 0 <= d < COUNT
      ensures CommittedIn(es[..n + 1], k, d) ==
              CommittedIn(es[..n], k, d) + if EntryKey(es[n]) == k then es[n].dimensions[d] else 0
    {
      CommittedAppended(es[..n], es[n], k, d);
    }
  }

  lemma ReservedTotalsStep(rs: seq<Reservation>, n: nat, k: AggregateKey)
    requires n < |rs|
    ensures ReservedTotals(rs[..n + 1], k) ==
            if ReservationKey(rs[n]) == k && rs[n].state == Reserved
            then Plus(ReservedTotals(rs[..n], k), rs[n].requested)
            else ReservedTotals(rs[..n], k)
  {
    assert rs[..n + 1] == rs[..n] + [rs[n]];
    forall d | 0 <= d < COUNT
      ensures ReservedIn(rs[..n + 1], k, d) ==
              ReservedIn(rs[..n], k, d) +
              if ReservationKey(rs[n]) == k && rs[n].state == Reserved then rs[n].requested[d] else 0
    {
      ReservedAppended(rs[..n], rs[n], k, d);
    }
  }

  method SumCommitted(entries: seq<UsageEntry>, k: AggregateKey) returns (r: Result<Dims, Denial>)
    ensures r == Checked(CommittedTotals(entries, k))
  {
    var committed := Zero();
    assert committed == CommittedTotals(entries[..0], k);
    for i := 0 to |entries|
      invariant committed == CommittedTotals(entries[..i], k) && IsSafe(committed)
    {
      CommittedTotalsStep(entries, i, k);
      if EntryKey(entries[i]) == k {
        TotalOfTwo(committed, entries[i].dimensions);
        var sum := AddDimensions([committed, entries[i].dimensions]);
        if sum.Err? {
          CommittedOverflows(entries, i + 1, k);
          return Err(sum.code);
        }
        committed := sum.value;
      }
    }
    assert entries[..|entries|] == entries;
    return Ok(committed);
  }

  method SumReserved(reservations: seq<Reservation>, k: AggregateKey) returns (r: Result<Dims, Denial>)
    ensures r == Checked(ReservedTotals(reservations, k))
  {
    var reserved := Zero();
    assert reserved == ReservedTotals(reservations[..0], k);
    for i := 0 to |reservations|
      invariant reserved == ReservedTotals(reservations[..i], k) && IsSafe(reserved)
    {
      ReservedTotalsStep(reservations, i, k);
      if ReservationKey(reservations[i]) == k && reservations[i].state == Reserved {
        TotalOfTwo(reserved, reservations[i].requested);
        var sum := AddDimensions([reserved, reservations[i].requested]);
        if sum.Err? {
          ReservedOverflows(reservations, i + 1, k);
          return Err(sum.code);
        }
        reserved := sum.value;
      }
    }
    assert reservations[..|reservations|] == reservations;
    return Ok(reserved);
  }

  /* ---------- Walking the snapshot of reservations ---------- */

  lemma {:induction false} DueFromFirst(rs: seq<Reservation>, organizationId: string, now: int)
    requires rs != []
    ensures Due(rs, organizationId, now) ==
            (if IsDue(rs[0], organizationId, now) then [rs[0]] else []) + Due(rs[1..], organizationId, now)
  {
    var n := |rs|;
    if n > 1 {
      DueFromFirst(rs[..n - 1], organizationId, now);
      assert rs[1..][..n - 2] == rs[..n - 1][1..];
    }
  }

  /** The reservations of the snapshot from `i` on are still as they were. */
  ghost predicate Walked(items: seq<Reservation>, i: nat, rs: seq<Reservation>) {
    && DistinctIds(rs)
    && |rs| == |items|
    && forall j | i <= j < |items| :: rs[j] == items[j]
  }

  lemma WalkOn(items: seq<Reservation>, i: nat, rs: seq<Reservation>)
    requires Walked(items, i, rs) && i < |items|
    ensures Walked(items, i + 1, rs) && Walked(items, i + 1, WithState(rs, rs[i].reservationId, Expired))
  {
    WithStateStaysDistinct(rs, rs[i].reservationId, Expired);
  }

  /** What is left to expire, seen from entry `i` of the snapshot. */
  lemma ExpiryUnfolds(s: Ledger, items: seq<Reservation>, i: nat, organizationId: string, now: int)
    requires i < |items|
    ensures ExpireAll(s, Due(items[i..], organizationId, now), now) ==
            if !IsDue(items[i], organizationId, now) then ExpireAll(s, Due(items[i + 1..], organizationId, now), now)
            else
              match Settle(s, items[i], ExpiryOf(items[i], now), System)
              case Ok(next) => ExpireAll(next, Due(items[i + 1..], organizationId, now), now)
              case Err(code) => Err(code)
  {
    hide Settle;
    DueFromFirst(items[i..], organizationId, now);
    assert items[i..][1..] == items[i + 1..];
    if IsDue(items[i], organizationId, now) {
      var due := Due(items[i..], organizationId, now);
      assert due[0] == items[i] && due[1..] == Due(items[i + 1..], organizationId, now);
    } else {
      assert Due(items[i..], organizationId, now) == Due(items[i + 1..], organizationId, now);
    }
  }

  lemma ExpiryEnds(s: Ledger, items: seq<Reservation>, organizationId: string, now: int)
    ensures ExpireAll(s, Due(items[|items|..], organizationId, now), now) == Ok(s)
  {
  }

  /** Storing a changed state under the reservation's own id changes just that entry. */
  lemma PutIsWithState(rs: seq<Reservation>, i: nat, state: ReservationState)
    requires DistinctIds(rs) && i < |rs|
    ensures PutReservation(rs, rs[i].(state := state)) == WithState(rs, rs[i].reservationId, state)
  {
    var put, with := PutReservation(rs, rs[i].(state := state)), WithState(rs, rs[i].reservationId, state);
    assert rs[i] in rs;
    FindMember(rs, rs[i]);
    forall j | 0 <= j < |rs| ensures put[j] == with[j] {
      assert j == i || rs[j].reservationId != rs[i].reservationId;
    }
  }

  lemma WithStateStaysDistinct(rs: seq<Reservation>, id: Id, state: ReservationState)
    requires DistinctIds(rs)
    ensures DistinctIds(WithState(rs, id, state))
  {
  }

  lemma PutStaysDistinct(rs: seq<Reservation>, x: Reservation)
    requires DistinctIds(rs)
    ensures DistinctIds(PutReservation(rs, x))
  {
    if FindReservation(rs, x.reservationId).None? {
      forall i | 0 <= i < |rs| ensures rs[i].reservationId != x.reservationId {
        assert rs[i] in rs;
      }
    }
  }

  /* ---------- The ledger object ---------- */

  class UsageLedger {
    var state: LedgerState

    /** The keys of the reservation dictionary are unique. */
    ghost predicate Valid()
      reads this, state
    {
      DistinctIds(state.reservations)
    }

    ghost function View(): Ledger
      reads this, state
    {
      state.View()
    }

    constructor ()
      ensures Valid() && fresh(state) && View() == EMPTY
    {
      state := new LedgerState(EMPTY);
    }

    /* ---------- Work on a candidate ---------- */

    static method AdvanceClock(candidate: LedgerState, organizationId: string, now: int)
      returns (outcome: Result<(), Denial>)
      modifies candidate
      ensures Does(S.AdvanceClock(old(candidate.View()), organizationId, now), outcome, candidate.View())
      ensures candidate.reservations == old(candidate.reservations)
    {
      if organizationId in candidate.lastClock && now < candidate.lastClock[organizationId] {
        return Err(ClockRegression);
      }
      candidate.lastClock := candidate.lastClock[organizationId := now];
      return Ok(());
    }

    static method AggregateAt(candidate: LedgerState, budget: Budget, index: nat, now: int) returns (r: Aggregate)
      ensures r == S.AggregateAt(candidate.View(), budget, index, now)
    {
      if KeyOf(budget, index) in candidate.aggregates {
        return candidate.aggregates[KeyOf(budget, index)];
      }
      return Aggregate(budget.organizationId, budget.budgetId, index, Zero(), Zero(), now);
    }

    static method Recomputed(candidate: LedgerState, budget: Budget, index: nat, now: int)
      returns (r: Result<Aggregate, Denial>)
      ensures r == S.Recomputed(candidate.View(), budget, index, now)
    {
      var committed := SumCommitted(candidate.usageEntries, KeyOf(budget, index));
      if committed.Err? {
        return Err(committed.code);
      }
      var reserved := SumReserved(candidate.reservations, KeyOf(budget, index));
      if reserved.Err? {
        return Err(reserved.code);
      }
      return Ok(Aggregate(budget.organizationId, budget.budgetId, index, committed.value, reserved.value, now));
    }

    static method MarkReconciled(candidate: LedgerState, budget: Budget, index: nat)
      returns (outcome: Result<(), Denial>)
      modifies candidate
      ensures Does(S.MarkReconciled(old(candidate.View()), budget, index), outcome, candidate.View())
      ensures candidate.reservations == old(candidate.reservations)
    {
      var observed := AggregateAt(candidate, budget, index, WindowStart(budget, index));
      var expected := Recomputed(candidate, budget, index, WindowStart(budget, index));
      if expected.Err? {
        return Err(expected.code);
      }
      var status := if DigestOf(observed) == DigestOf(expected.value) then Match else Mismatch;
      candidate.reconciled := candidate.reconciled[KeyOf(budget, index) := status];
      return Ok(());
    }

    static method BudgetState(candidate: LedgerState, budget: Budget, index: nat)
      returns (r: Result<BudgetStateCode, Denial>)
      ensures r == S.BudgetState(candidate.View(), budget, index)
    {
      if !budget.enabled {
        return Ok(Suspended);
      }
      var aggregate := AggregateAt(candidate, budget, index, WindowStart(budget, index));
      TotalOfTwo(aggregate.committed, aggregate.reserved);
      var total := AddDimensions([aggregate.committed, aggregate.reserved]);
      if total.Err? {
        return Err(total.code);
      }
      if EarlierMismatch(candidate.View(), budget, index) {
        return Ok(ResetPending);
      }
      if Reached(total.value, budget.limits) {
        return Ok(Exhausted);
      }
      for i := 0 to COUNT
        invariant forall j | 0 <= j < i ::
                    !(budget.limits[j] > 0 && total.value[j] * 10_000 >= budget.limits[j] * budget.warningBasisPoints)
      {
        if budget.limits[i] > 0 && total.value[i] * 10_000 >= budget.limits[i] * budget.warningBasisPoints {
          return Ok(Warning);
        }
      }
      return Ok(Available);
    }

    static method AppendEvent(candidate: LedgerState, event: OutboxEvent)
      modifies candidate
      ensures candidate.View() == WithEvent(old(candidate.View()), event)
    {
      candidate.audit := candidate.audit + [Emitted(event)];
      candidate.outbox := candidate.outbox + [event];
    }

    static method AppendDenial(candidate: LedgerState, who: Identity, request: Request, reason: Denial, now: int)
      modifies candidate
      ensures candidate.View() == WithDenial(old(candidate.View()), who, request, reason, now)
    {
      candidate.audit := candidate.audit + [Denied(who.organizationId, who.subjectId, request, reason, now)];
    }

    /** One round of the expiry loop. */
    static method Expire(candidate: LedgerState, i: nat, now: int) returns (outcome: Result<(), Denial>)
      requires DistinctIds(candidate.reservations) && i < |candidate.reservations|
      modifies candidate
      ensures Does(Settle(old(candidate.View()), old(candidate.reservations)[i],
                          ExpiryOf(old(candidate.reservations)[i], now), System),
                   outcome, candidate.View())
      ensures outcome.Ok? ==>
                candidate.reservations ==
                    WithState(old(candidate.reservations), old(candidate.reservations)[i].reservationId, Expired)
    {
      hide WithState, Booked, PutReservation;
      var r := candidate.reservations[i];
      if BudgetKey(r.organizationId, r.budgetId) !in candidate.budgets {
        return Err(KeyMissing);
      }
      var budget := candidate.budgets[BudgetKey(r.organizationId, r.budgetId)];
      var aggregate := AggregateAt(candidate, budget, r.window.index, now);
      var reserved := SubtractDimensions(aggregate.reserved, r.requested);
      if reserved.Err? {
        return Err(reserved.code);
      }
      var request := ExpiryRequest(r.reservationId, now);
      var transition := UsageModels.Transition(
        TransitionId(request), r.reservationId, r.organizationId, Expired, SystemExpiry(r.reservationId), request,
        Zero(), "RESERVATION_EXPIRED", now);
      ghost var before := candidate.View();
      EnterExpiry(candidate, KeyOf(budget, r.window.index), i, transition,
                  aggregate.(reserved := reserved.value, updatedAt := now));
      AppendEvent(candidate, OutboxEvent(r.organizationId, System, UsageExpired, transition.transitionId,
                                         transition.request, now));
      assert candidate.View() ==
             Settled(before, budget, r, transition, System, aggregate.(reserved := reserved.value, updatedAt := now));
      outcome := MarkReconciled(candidate, budget, r.window.index);
    }

    /** The changes of an expiry to the books of the candidate. */
    static method EnterExpiry(candidate: LedgerState, k: AggregateKey, i: nat, transition: Transition,
                              aggregate: Aggregate)
      requires DistinctIds(candidate.reservations) && i < |candidate.reservations|
      requires transition.state == Expired && !transition.keyDigest.OfKey?
      modifies candidate
      ensures candidate.View() ==
              Booked(old(candidate.View()), k, old(candidate.reservations)[i], transition, aggregate)
      ensures candidate.reservations ==
              WithState(old(candidate.reservations), old(candidate.reservations)[i].reservationId, Expired)
    {
      hide WithState, PutReservation;
      candidate.aggregates := candidate.aggregates[k := aggregate];
      candidate.transitions := candidate.transitions + [transition];
      PutIsWithState(candidate.reservations, i, Expired);
      candidate.reservations := PutReservation(candidate.reservations, candidate.reservations[i].(state := Expired));
    }

    /** Walks a snapshot of the dictionary while the dictionary itself changes. */
    static method ExpireDue(candidate: LedgerState, organizationId: string, now: int)
      returns (outcome: Result<(), Denial>)
      requires DistinctIds(candidate.reservations)
      modifies candidate
      ensures Does(S.ExpireDue(old(candidate.View()), organizationId, now), outcome, candidate.View())
      ensures outcome.Ok? ==> DistinctIds(candidate.reservations)
    {
      var items := candidate.reservations;
      ghost var start := candidate.View();
      hide Settle, ExpireAll, Due, IsDue, WithState;
      assert items[0..] == items;
      for i := 0 to |items|
        invariant Walked(items, i, candidate.reservations)
        invariant S.ExpireDue(start, organizationId, now) ==
                  ExpireAll(candidate.View(), Due(items[i..], organizationId, now), now)
      {
        ExpiryUnfolds(candidate.View(), items, i, organizationId, now);
        WalkOn(items, i, candidate.reservations);
        if IsDue(items[i], organizationId, now) {
          outcome := Expire(candidate, i, now);
          if outcome.Err? {
            return;
          }
        }
      }
      ExpiryEnds(candidate.View(), items, organizationId, now);
      return Ok(());
    }

    /** Every operation starts with a copy, the clock and the expiry loop. */
    method Begin(organizationId: string, now: int) returns (candidate: LedgerState, outcome: Result<(), Denial>)
      requires Valid()
      ensures fresh(candidate)
      ensures Does(Prepare(View(), organizationId, now), outcome, candidate.View())
      ensures outcome.Ok? ==> DistinctIds(candidate.reservations)
    {
      candidate := state.Copy();
      outcome := AdvanceClock(candidate, organizationId, now);
      if outcome.Ok? {
        outcome := ExpireDue(candidate, organizationId, now);
      }
    }

    /** `_commit`: publishes the candidate unless the failure injector raises. */
    method Publish(candidate: LedgerState, storeFails: bool) returns (published: bool)
      modifies this
      ensures published == !storeFails
      ensures state == if storeFails then old(state) else candidate
    {
      if storeFails {
        return false;
      }
      state := candidate;
      return true;
    }

    /* ---------- Operations ---------- */

    method AddBudget(budget: Budget, storeFails: bool) returns (response: Response)
      requires Valid()
      modifies this
      ensures Valid() && (state == old(state) || fresh(state))
      ensures (View(), response) == AddBudgetStep(old(View()), budget, storeFails)
    {
      var key := BudgetKey(budget.organizationId, budget.budgetId);
      var candidate := state.Copy();
      if key in candidate.budgets {
        return if candidate.budgets[key] == budget then BudgetAdded else Refused(BudgetConflict);
      }
      candidate.budgets := candidate.budgets[key := budget];
      var published := Publish(candidate, storeFails);
      return if published then BudgetAdded else Refused(StoreCommitFailed);
    }

    method Reserve(who: Identity, terms: ReserveTerms, now: int, storeFails: bool) returns (response: Response)
      requires Valid()
      modifies this
      ensures Valid() && (state == old(state) || fresh(state))
      ensures (View(), response) == ReserveStep(old(View()), who, terms, now, storeFails)
    {
      var amounts := NormalizeDimensions(terms.requested, RequestedInvalid, true);
      if amounts.Err? {
        return Refused(amounts.code);
      }
      var request := ReserveRequestOf(who, terms, amounts.value);
      var candidate, begun := Begin(who.organizationId, now);
      if begun.Err? {
        return Refused(begun.code);
      }
      var key := IdempotencyKey(who.organizationId, Reserved, terms.key);
      if key in candidate.idempotency {
        response := ShowReserved(candidate, candidate.idempotency[key], who.organizationId, request);
        return;
      }
      var budget := FindBudget(candidate.View(), who.organizationId, terms.budgetId, terms.budgetDigest,
                               terms.scopeType, terms.scopeId);
      if budget.Err? {
        return Refused(budget.code);
      }
      response := ReserveFrom(candidate, budget.value, who, request, now, storeFails);
    }

    /** The answer to a repeated reserve call. */
    static method ShowReserved(candidate: LedgerState, binding: Binding, organizationId: string, request: Request)
      returns (response: Response)
      ensures response == ReplayReserve(candidate.View(), binding, organizationId, request)
    {
      if binding.request != request {
        return Refused(IdempotencyConflict);
      }
      var reservation := FindReservation(candidate.reservations, binding.id);
      if reservation.None? || BudgetKey(organizationId, reservation.value.budgetId) !in candidate.budgets {
        return Refused(KeyMissing);
      }
      var budget := candidate.budgets[BudgetKey(organizationId, reservation.value.budgetId)];
      var budgetState := BudgetState(candidate, budget, reservation.value.window.index);
      if budgetState.Err? {
        return Refused(budgetState.code);
      }
      return ReservationShown(reservation.value, budgetState.value);
    }

    /** The part of a reserve call that follows the look-ups. */
    method ReserveFrom(candidate: LedgerState, budget: Budget, who: Identity, request: Request, now: int,
                       storeFails: bool)
      returns (response: Response)
      requires Valid() && candidate != state && DistinctIds(candidate.reservations) && request.ReserveRequest?
      modifies this, candidate
      ensures Valid() && (state == old(state) || state == candidate)
      ensures (View(), response) ==
              S.ReserveFrom(old(View()), old(candidate.View()), budget, who, request, now, storeFails)
    {
      if !budget.enabled {
        response := Deny(candidate, who, request, BudgetSuspended, now, storeFails);
        return;
      }
      if !(1 <= request.ttlSeconds <= Min(3600, budget.reservationTtlSeconds)) {
        return Refused(ReservationTtlInvalid);
      }
      var window := WindowAt(budget, now);
      if window.Err? {
        return Refused(window.code);
      }
      var aggregate := AggregateAt(candidate, budget, window.value.index, now);
      TotalOfThree(aggregate.committed, aggregate.reserved, request.requested);
      var projected := AddDimensions([aggregate.committed, aggregate.reserved, request.requested]);
      if projected.Err? {
        return Refused(projected.code);
      }
      var exceeded := ExceededDimensions(projected.value, budget.limits);
      if exceeded != [] && budget.enforcement == Hard {
        response := Deny(candidate, who, request, BudgetExceeded, now, storeFails);
        return;
      }
      var reservation := Draft(budget, who, request, window.value, exceeded, now);
      var admitted := Admit(candidate, budget, who, reservation);
      if admitted.Err? {
        return Refused(admitted.code);
      }
      var published := Publish(candidate, storeFails);
      if !published {
        return Refused(StoreCommitFailed);
      }
      var budgetState := BudgetState(candidate, budget, window.value.index);
      return if budgetState.Err? then Refused(budgetState.code) else ReservationShown(reservation, budgetState.value);
    }

    static method Draft(budget: Budget, who: Identity, request: Request, window: Window, exceeded: seq<string>,
                        now: int)
      returns (reservation: Reservation)
      requires request.ReserveRequest?
      ensures reservation == NewReservation(budget, who, request, window, exceeded, now)
    {
      var expiresAt := Min(now + request.ttlSeconds, window.end);
      return Reservation(
        ReservationId(request), who.organizationId, who.tokenDigest, budget.budgetId, budget.budgetDigest,
        budget.scopeType, budget.scopeId, request.operationId, request, request.key, request.requested,
        window, now, expiresAt, budget.enforcement, exceeded, Reserved);
    }

    /** A denial is published: its clock, its expiries and its audit record stay. */
    method Deny(candidate: LedgerState, who: Identity, request: Request, reason: Denial, now: int, storeFails: bool)
      returns (response: Response)
      requires Valid() && candidate != state && DistinctIds(candidate.reservations)
      modifies this, candidate
      ensures Valid() && (state == old(state) || state == candidate)
      ensures (View(), response) ==
              S.Publish(old(View()), WithDenial(old(candidate.View()), who, request, reason, now), storeFails,
                        Refused(reason))
    {
      AppendDenial(candidate, who, request, reason, now);
      var published := Publish(candidate, storeFails);
      return if published then Refused(reason) else Refused(StoreCommitFailed);
    }

    /** Books a new reservation on the candidate. */
    static method Admit(candidate: LedgerState, budget: Budget, who: Identity, reservation: Reservation)
      returns (outcome: Result<(), Denial>)
      requires DistinctIds(candidate.reservations)
      modifies candidate
      ensures Does(S.Admit(old(candidate.View()), budget, who, reservation), outcome, candidate.View())
      ensures outcome.Ok? ==> DistinctIds(candidate.reservations)
    {
      var aggregate := AggregateAt(candidate, budget, reservation.window.index, reservation.createdAt);
      TotalOfTwo(aggregate.reserved, reservation.requested);
      var reserved := AddDimensions([aggregate.reserved, reservation.requested]);
      if reserved.Err? {
        return Err(reserved.code);
      }
      ghost var before := candidate.View();
      PutStaysDistinct(candidate.reservations, reservation);
      var booked := aggregate.(reserved := reserved.value, updatedAt := reservation.createdAt);
      candidate.reservations := PutReservation(candidate.reservations, reservation);
      candidate.idempotency := candidate.idempotency[
        IdempotencyKey(reservation.organizationId, Reserved, reservation.key) :=
            Binding(reservation.request, reservation.reservationId)];
      candidate.aggregates := candidate.aggregates[KeyOf(budget, reservation.window.index) := booked];
      AppendEvent(candidate,
                  OutboxEvent(who.organizationId, Caller(who.subjectId), UsageReserved, reservation.reservationId,
                                         reservation.request, reservation.createdAt));
      assert candidate.View() == Admitted(before, budget, who, reservation, booked);
      outcome := MarkReconciled(candidate, budget, reservation.window.index);
    }

    method Commit(who: Identity, reservationId: Id, key: string, observed: map<string, int>, now: int, storeFails: bool)
      returns (response: Response)
      requires Valid()
      modifies this
      ensures Valid() && (state == old(state) || fresh(state))
      ensures (View(), response) == CommitStep(old(View()), who, reservationId, key, observed, now, storeFails)
    {
      var amounts := NormalizeDimensions(observed, ObservedInvalid, false);
      if amounts.Err? {
        return Refused(amounts.code);
      }
      response := Transition(who, reservationId, key, amounts.value, Committed, "USAGE_COMMITTED", now, storeFails);
    }

    method Release(who: Identity, reservationId: Id, key: string, reason: string, now: int, storeFails: bool)
      returns (response: Response)
      requires Valid()
      modifies this
      ensures Valid() && (state == old(state) || fresh(state))
      ensures (View(), response) == ReleaseStep(old(View()), who, reservationId, key, reason, now, storeFails)
    {
      response := Transition(who, reservationId, key, Zero(), Released, reason, now, storeFails);
    }

    method Transition(who: Identity, reservationId: Id, key: string, observed: Dims, target: ReservationState,
                      reason: string, now: int, storeFails: bool)
      returns (response: Response)
      requires Valid() && (target == Committed || target == Released)
      modifies this
      ensures Valid() && (state == old(state) || fresh(state))
      ensures (View(), response) ==
              TransitionStep(old(View()), who, reservationId, key, observed, target, reason, now, storeFails)
    {
      var request := TransitionRequest(who.organizationId, reservationId, target, key, observed, reason);
      var candidate, begun := Begin(who.organizationId, now);
      if begun.Err? {
        return Refused(begun.code);
      }
      var bound := IdempotencyKey(who.organizationId, target, key);
      if bound in candidate.idempotency {
        return ReplayTransition(candidate.View(), candidate.idempotency[bound], request);
      }
      var reservation := FindReservation(candidate.reservations, reservationId);
      if reservation.None? || reservation.value.organizationId != who.organizationId {
        return Refused(ReservationNotFound);
      }
      if reservation.value.state == Expired {
        return Refused(ReservationExpired);
      }
      if reservation.value.state != Reserved {
        return Refused(ReservationTerminal);
      }
      if target == Committed && !Le(observed, reservation.value.requested) {
        return Refused(CommitExceedsReservation);
      }
      var transition := UsageModels.Transition(
        TransitionId(request), reservationId, who.organizationId, target, OfKey(key), request, observed, reason, now);
      var settled := Book(candidate, reservation.value, transition, who.subjectId);
      if settled.Err? {
        return Refused(settled.code);
      }
      var published := Publish(candidate, storeFails);
      return if published then TransitionShown(transition) else Refused(StoreCommitFailed);
    }

    /** Books a commit or release on the candidate. */
    static method Book(candidate: LedgerState, reservation: Reservation, transition: Transition, subjectId: string)
      returns (outcome: Result<(), Denial>)
      requires DistinctIds(candidate.reservations) && reservation in candidate.reservations
      requires transition.reservationId == reservation.reservationId
      requires transition.organizationId == reservation.organizationId
      requires (transition.state == Committed || transition.state == Released) && transition.keyDigest.OfKey?
      modifies candidate
      ensures Does(S.Settle(old(candidate.View()), reservation, transition, Caller(subjectId)), outcome,
                   candidate.View())
      ensures outcome.Ok? ==> DistinctIds(candidate.reservations)
    {
      hide WithState, EntryOf, Booked;
      var k := BudgetKey(transition.organizationId, reservation.budgetId);
      if k !in candidate.budgets {
        return Err(KeyMissing);
      }
      var budget := candidate.budgets[k];
      ghost var before := candidate.View();
      var aggregate := SettleAggregate(candidate, budget, reservation, transition);
      if aggregate.Err? {
        return Err(aggregate.code);
      }
      Enter(candidate, KeyOf(budget, reservation.window.index), reservation, transition, aggregate.value);
      var kind := if transition.state == Committed then UsageCommitted else UsageReleased;
      var id :=
        if transition.state == Committed
        then UsageId(transition.reservationId, transition.transitionId, transition.observed)
        else transition.transitionId;
      AppendEvent(candidate, OutboxEvent(transition.organizationId, Caller(subjectId), kind, id,
                                         transition.request, transition.occurredAt));
      assert candidate.View() == Settled(before, budget, reservation, transition, Caller(subjectId), aggregate.value);
      outcome := MarkReconciled(candidate, budget, reservation.window.index);
    }

    /** The changes of a commit or release to the books of the candidate. */
    static method Enter(candidate: LedgerState, k: AggregateKey, reservation: Reservation, transition: Transition,
                        aggregate: Aggregate)
      requires DistinctIds(candidate.reservations) && reservation in candidate.reservations
      requires transition.reservationId == reservation.reservationId && transition.keyDigest.OfKey?
      modifies candidate
      ensures candidate.View() == Booked(old(candidate.View()), k, reservation, transition, aggregate)
      ensures DistinctIds(candidate.reservations)
    {
      hide WithState, EntryOf;
      candidate.aggregates := candidate.aggregates[k := aggregate];
      candidate.transitions := candidate.transitions + [transition];
      StoreState(candidate, reservation, transition.state);
      candidate.idempotency := candidate.idempotency[
        IdempotencyKey(transition.organizationId, transition.state, transition.keyDigest.key) :=
          Binding(transition.request, transition.transitionId)];
      if transition.state == Committed {
        var entry := Entry(reservation, transition);
        candidate.usageEntries := candidate.usageEntries + [entry];
      }
    }

    static method Entry(reservation: Reservation, transition: Transition) returns (entry: UsageEntry)
      ensures entry == EntryOf(reservation, transition)
    {
      var usageId := UsageId(transition.reservationId, transition.transitionId, transition.observed);
      return UsageEntry(
        usageId, reservation.organizationId, transition.reservationId, reservation.budgetId, reservation.budgetDigest,
        reservation.scopeType, reservation.scopeId, reservation.operationId, transition.observed,
        reservation.window.index, transition.occurredAt);
    }

    static method StoreState(candidate: LedgerState, reservation: Reservation, target: ReservationState)
      requires DistinctIds(candidate.reservations) && reservation in candidate.reservations
      modifies candidate`reservations
      ensures candidate.reservations == WithState(old(candidate.reservations), reservation.reservationId, target)
      ensures DistinctIds(candidate.reservations)
    {
      ghost var i :| 0 <= i < |candidate.reservations| && candidate.reservations[i] == reservation;
      PutIsWithState(candidate.reservations, i, target);
      WithStateStaysDistinct(candidate.reservations, reservation.reservationId, target);
      candidate.reservations := PutReservation(candidate.reservations, reservation.(state := target));
    }

    static method SettleAggregate(candidate: LedgerState, budget: Budget, reservation: Reservation,
                                  transition: Transition)
      returns (r: Result<Aggregate, Denial>)
      ensures r == SettledAggregate(candidate.View(), budget, reservation, transition)
    {
      var aggregate := AggregateAt(candidate, budget, reservation.window.index, transition.occurredAt);
      var committed := Ok(aggregate.committed);
      if transition.state == Committed {
        TotalOfTwo(aggregate.committed, transition.observed);
        committed := AddDimensions([aggregate.committed, transition.observed]);
        if committed.Err? {
          return Err(committed.code);
        }
      }
      var reserved := SubtractDimensions(aggregate.reserved, reservation.requested);
      if reserved.Err? {
        return Err(reserved.code);
      }
      var settled := aggregate.(committed := committed.value, reserved := reserved.value);
      return Ok(settled.(updatedAt := transition.occurredAt));
    }

    method Evaluate(who: Identity, budgetId: string, budgetDigest: string, scopeType: string, scopeId: string,
                    requested: map<string, int>, now: int, storeFails: bool)
      returns (response: Response)
      requires Valid()
      modifies this
      ensures Valid() && (state == old(state) || fresh(state))
      ensures (View(), response) ==
              EvaluateStep(old(View()), who, budgetId, budgetDigest, scopeType, scopeId, requested, now, storeFails)
    {
      var amounts := NormalizeDimensions(requested, RequestedInvalid, true);
      if amounts.Err? {
        return Refused(amounts.code);
      }
      var candidate, begun := Begin(who.organizationId, now);
      if begun.Err? {
        return Refused(begun.code);
      }
      var budget := FindBudget(candidate.View(), who.organizationId, budgetId, budgetDigest, scopeType, scopeId);
      if budget.Err? {
        return Refused(budget.code);
      }
      response := EvaluateFrom(candidate, budget.value, amounts.value, now, storeFails);
    }

    method EvaluateFrom(candidate: LedgerState, budget: Budget, amounts: Dims, now: int, storeFails: bool)
      returns (response: Response)
      requires Valid() && candidate != state && DistinctIds(candidate.reservations)
      modifies this, candidate
      ensures Valid() && (state == old(state) || state == candidate)
      ensures (View(), response) == S.EvaluateFrom(old(View()), old(candidate.View()), budget, amounts, now, storeFails)
    {
      var window := WindowAt(budget, now);
      if window.Err? {
        return Refused(window.code);
      }
      var aggregate := AggregateAt(candidate, budget, window.value.index, now);
      TotalOfThree(aggregate.committed, aggregate.reserved, amounts);
      var projected := AddDimensions([aggregate.committed, aggregate.reserved, amounts]);
      if projected.Err? {
        return Refused(projected.code);
      }
      var exceeded := ExceededDimensions(projected.value, budget.limits);
      var budgetState := BudgetState(candidate, budget, window.value.index);
      if budgetState.Err? {
        return Refused(budgetState.code);
      }
      if candidate.View() != state.View() {
        var marked := MarkReconciled(candidate, budget, window.value.index);
        if marked.Err? {
          return Refused(marked.code);
        }
        var published := Publish(candidate, storeFails);
        if !published {
          return Refused(StoreCommitFailed);
        }
      }
      return EvaluationShown(
        Evaluation(budget.budgetId, budget.budgetDigest, budget.scopeType, budget.scopeId, budgetState.value,
                   budget.enforcement, budget.enabled && (exceeded == [] || budget.enforcement == Advisory), exceeded,
                   projected.value, window.value));
    }

    method Reconcile(who: Identity, budgetId: string, now: int, storeFails: bool) returns (response: Response)
      requires Valid()
      modifies this
      ensures Valid() && (state == old(state) || fresh(state))
      ensures (View(), response) == ReconcileStep(old(View()), who, budgetId, now, storeFails)
    {
      var candidate, begun := Begin(who.organizationId, now);
      if begun.Err? {
        return Refused(begun.code);
      }
      if BudgetKey(who.organizationId, budgetId) !in candidate.budgets {
        return Refused(BudgetNotFound);
      }
      response := ReconcileFrom(candidate, candidate.budgets[BudgetKey(who.organizationId, budgetId)], who, budgetId,
                                now, storeFails);
    }

    method ReconcileFrom(candidate: LedgerState, budget: Budget, who: Identity, budgetId: string, now: int,
                         storeFails: bool)
      returns (response: Response)
      requires Valid() && candidate != state && DistinctIds(candidate.reservations)
      modifies this, candidate
      ensures Valid() && (state == old(state) || state == candidate)
      ensures (View(), response) ==
              S.ReconcileFrom(old(View()), old(candidate.View()), budget, who, budgetId, now, storeFails)
    {
      var window := WindowAt(budget, now);
      if window.Err? {
        return Refused(window.code);
      }
      var observed := AggregateAt(candidate, budget, window.value.index, now);
      var expected := Recomputed(candidate, budget, window.value.index, now);
      if expected.Err? {
        return Refused(expected.code);
      }
      var status := if DigestOf(expected.value) == DigestOf(observed) then Match else Mismatch;
      var finding := ReconciliationFinding(who.organizationId, budgetId, window.value.index, DigestOf(expected.value),
                                           DigestOf(observed), status, now);
      candidate.reconciliations := candidate.reconciliations + [finding];
      candidate.reconciled := candidate.reconciled[KeyOf(budget, window.value.index) := status];
      var published := Publish(candidate, storeFails);
      return if published then ReconciliationShown(finding) else Refused(StoreCommitFailed);
    }

    /** Advances the clock without expiring anything. */
    method RetentionDue(who: Identity, budgetId: string, now: int, storeFails: bool) returns (response: Response)
      requires Valid()
      modifies this
      ensures Valid() && (state == old(state) || fresh(state))
      ensures (View(), response) == RetentionStep(old(View()), who, budgetId, now, storeFails)
    {
      var candidate := state.Copy();
      var clock := AdvanceClock(candidate, who.organizationId, now);
      if clock.Err? {
        return Refused(clock.code);
      }
      if BudgetKey(who.organizationId, budgetId) !in candidate.budgets {
        return Refused(BudgetNotFound);
      }
      var budget := candidate.budgets[BudgetKey(who.organizationId, budgetId)];
      var window := WindowAt(budget, now);
      if window.Err? {
        return Refused(window.code);
      }
      var cutoff := window.value.index - budget.retentionWindows;
      var history := History(candidate.usageEntries, who.organizationId, budgetId, cutoff);
      var finding := RetentionFinding(who.organizationId, budgetId, cutoff, history, history != [], now);
      candidate.retentions := candidate.retentions + [finding];
      var published := Publish(candidate, storeFails);
      return if published then RetentionShown(finding) else Refused(StoreCommitFailed);
    }

    /** One locked call, whichever it is, is one step of the run. */
    method Perform(e: Event) returns (response: Response)
      requires Valid()
      modifies this
      ensures Valid() && (state == old(state) || fresh(state))
      ensures (View(), response) == Step(old(View()), e)
    {
      hide AddBudgetStep, ReserveStep, CommitStep, ReleaseStep, EvaluateStep, ReconcileStep, RetentionStep;
      match e.op
      case AddBudget(b) => response := AddBudget(b, e.storeFails);
      case Reserve(who, terms, now) => response := Reserve(who, terms, now, e.storeFails);
      case Commit(who, id, key, observed, now) => response := Commit(who, id, key, observed, now, e.storeFails);
      case Release(who, id, key, reason, now) => response := Release(who, id, key, reason, now, e.storeFails);
      case Evaluate(who, budgetId, digest, scopeType, scopeId, requested, now) =>
        response := Evaluate(who, budgetId, digest, scopeType, scopeId, requested, now, e.storeFails);
      case Reconcile(who, budgetId, now) => response := Reconcile(who, budgetId, now, e.storeFails);
      case RetentionDue(who, budgetId, now) => response := RetentionDue(who, budgetId, now, e.storeFails);
    }
  }
}
