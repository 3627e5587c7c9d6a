/** What preparing a candidate does to the ledger of a run, and what it leaves reserved. */
module LedgerExpiry {
  import opened Results
  import opened Dimensions
  import opened UsageModels
  import opened LedgerSpec
  import opened LedgerInvariant
  import opened LedgerSequences
  import opened LedgerSettlement
  import opened LedgerRuns
  import opened TenantSlices

  /* ---------- Exactly what expires ---------- */

  /** Every live reservation of the tenant whose time is up is now expired; all others are as before. */
  ghost predicate Lapsed(rs: seq<Reservation>, rs': seq<Reservation>, o: string, now: int) {
    && |rs'| == |rs|
    && forall i | 0 <= i < |rs| ::
         rs'[i] ==
         if rs[i].organizationId == o && rs[i].state == Reserved && rs[i].expiresAt <= now
         then rs[i].(state := Expired) else rs[i]
  }

  ghost predicate IsExpiry(t: Transition, o: string, now: int) {
    && t.organizationId == o
    && t.transitionId == TransitionId(ExpiryRequest(t.reservationId, now))
    && t.state == Expired
    && t.keyDigest == SystemExpiry(t.reservationId)
    && t.request == ExpiryRequest(t.reservationId, now)
    && (forall d | 0 <= d < COUNT :: t.observed[d] == 0)
    && t.reason == "RESERVATION_EXPIRED"
    && t.occurredAt == now
  }

  function ExpiryEvent(t: Transition): OutboxEvent {
    OutboxEvent(t.organizationId, System, UsageExpired, t.transitionId, t.request, t.occurredAt)
  }

  function ExpiryEvents(ts: seq<Transition>): (r: seq<OutboxEvent>)
    ensures |r| == |ts| && forall i | 0 <= i < |ts| :: r[i] == ExpiryEvent(ts[i])
  {
    seq(|ts|, i requires 0 <= i < |ts| => ExpiryEvent(ts[i]))
  }

  function Emits(events: seq<OutboxEvent>): (r: seq<AuditRecord>)
    ensures |r| == |events| && forall i | 0 <= i < |events| :: r[i] == Emitted(events[i])
  {
    seq(|events|, i requires 0 <= i < |events| => Emitted(events[i]))
  }

  /** The log of transitions has grown by expiries `ts`, and outbox and audit log announce them. */
  ghost predicate LogsExpiries(s: Ledger, c: Ledger, ts: seq<Transition>, o: string, now: int) {
    && (forall i | 0 <= i < |ts| :: IsExpiry(ts[i], o, now))
    && c.transitions == s.transitions + ts
    && c.outbox == s.outbox + ExpiryEvents(ts)
    && c.audit == s.audit + Emits(ExpiryEvents(ts))
  }

  ghost predicate LogsOnlyExpiries(s: Ledger, c: Ledger, o: string, now: int) {
    s.transitions <= c.transitions && LogsExpiries(s, c, c.transitions[|s.transitions|..], o, now)
  }

  ghost predicate SameOtherwise(s: Ledger, c: Ledger) {
    && c.budgets == s.budgets
    && c.usageEntries == s.usageEntries
    && c.idempotency == s.idempotency
    && c.reconciliations == s.reconciliations
    && c.retentions == s.retentions
  }

  /** `c` is `s` at the clock `now`, with the tenant's overdue reservations expired and nothing else. */
  ghost predicate OnlyExpires(s: Ledger, c: Ledger, o: string, now: int) {
    && SameOtherwise(s, c)
    && c.lastClock == s.lastClock[o := now]
    && Lapsed(s.reservations, c.reservations, o, now)
    && LogsOnlyExpiries(s, c, o, now)
  }

  /** The same, for a given list of reservations and a clock that stands already. */
  ghost predicate ExpiresThose(s: Ledger, c: Ledger, due: seq<Reservation>, o: string, now: int) {
    && SameOtherwise(s, c)
    && c.lastClock == s.lastClock
    && |c.reservations| == |s.reservations|
    && (forall i | 0 <= i < |s.reservations| ::
          c.reservations[i] ==
              if s.reservations[i] in due then s.reservations[i].(state := Expired) else s.reservations[i])
    && LogsOnlyExpiries(s, c, o, now)
  }

  lemma ExpiringOne(s: Ledger, r: Reservation, o: string, now: int, next: Ledger)
    requires DistinctIds(s.reservations) && r in s.reservations && r.organizationId == o
    requires SettleEffect(s, r, ExpiryOf(r, now), System, next)
    ensures ExpiresThose(s, next, [r], o, now)
  {
    var t := ExpiryOf(r, now);
    assert next.transitions[|s.transitions|..] == [t];
    assert ExpiryEvents([t]) == [ExpiryEvent(t)] && Emits([ExpiryEvent(t)]) == [Emitted(ExpiryEvent(t))];
    forall i | 0 <= i < |s.reservations|
      ensures next.reservations[i] ==
              if s.reservations[i] in [r] then s.reservations[i].(state := Expired) else s.reservations[i]
    {
      FindMember(s.reservations, r);
      FindMember(s.reservations, s.reservations[i]);
    }
  }

  lemma ExpiringOn(s: Ledger, next: Ledger, c: Ledger, due: seq<Reservation>, o: string, now: int)
    requires due != [] && due[0] !in due[1..] && due[0].state == Reserved
    requires ExpiresThose(s, next, [due[0]], o, now) && ExpiresThose(next, c, due[1..], o, now)
    requires forall r | r in due[1..] :: r.state == Reserved
    ensures ExpiresThose(s, c, due, o, now)
  {
    assert due == [due[0]] + due[1..];
    forall i | 0 <= i < |s.reservations|
      ensures c.reservations[i] ==
              if s.reservations[i] in due then s.reservations[i].(state := Expired) else s.reservations[i]
    {
    }
    LogsOn(s, next, c, o, now);
  }

  lemma LogsOn(s: Ledger, next: Ledger, c: Ledger, o: string, now: int)
    requires LogsOnlyExpiries(s, next, o, now) && LogsOnlyExpiries(next, c, o, now)
    ensures LogsOnlyExpiries(s, c, o, now)
  {
    hide LogsExpiries;
    var ts, us := next.transitions[|s.transitions|..], c.transitions[|next.transitions|..];
    LogsJoin(s, next, c, ts, us, o, now);
    assert c.transitions[|s.transitions|..] == ts + us;
  }

  lemma LogsJoin(s: Ledger, next: Ledger, c: Ledger, ts: seq<Transition>, us: seq<Transition>, o: string, now: int)
    requires LogsExpiries(s, next, ts, o, now) && LogsExpiries(next, c, us, o, now)
    ensures LogsExpiries(s, c, ts + us, o, now)
  {
    hide IsExpiry, ExpiryEvents, Emits;
    EventsJoin(ts, us);
  }

  lemma EventsJoin(ts: seq<Transition>, us: seq<Transition>)
    ensures ExpiryEvents(ts + us) == ExpiryEvents(ts) + ExpiryEvents(us)
    ensures Emits(ExpiryEvents(ts) + ExpiryEvents(us)) == Emits(ExpiryEvents(ts)) + Emits(ExpiryEvents(us))
  {
    hide ExpiryEvent;
  }

  lemma {:induction false} ExpiringAll(s: SoundLedger, due: seq<Reservation>, o: string, now: int)
    requires AllLive(s, due, o, now) && o in s.lastClock && s.lastClock[o] == now
    ensures ExpireAll(s, due, now).Ok? && ExpiresThose(s, ExpireAll(s, due, now).value, due, o, now)
    decreases |due|
  {
    hide Inv, Settle, ExpiresThose, Advances, SettleEffect;
    if due == [] {
      NothingExpires(s, o, now);
    } else {
      assert due[0] in due;
      MemberIsOk(s, due[0]);
      MayExpire(s, due[0], o, now);
      var next := SettleAdvances(s, due[0], ExpiryOf(due[0], now), System);
      ExpiringOne(s, due[0], o, now, next);
      AfterExpiring(s, due, o, now, next);
      ExpiringAll(next, due[1..], o, now);
      ExpiringOn(s, next, ExpireAll(next, due[1..], now).value, due, o, now);
    }
  }

  lemma NothingExpires(s: Ledger, o: string, now: int)
    ensures ExpiresThose(s, s, [], o, now)
  {
  }

  lemma AfterExpiring(s: Ledger, due: seq<Reservation>, o: string, now: int, next: Ledger)
    requires due != [] && AllLive(s, due, o, now) && DistinctIds(s.reservations)
    requires SettleEffect(s, due[0], ExpiryOf(due[0], now), System, next)
    ensures AllLive(next, due[1..], o, now) && next.lastClock == s.lastClock
    ensures due[0].state == Reserved && due[0] !in due[1..] && forall r | r in due[1..] :: r.state == Reserved
  {
    assert due[0] in due;
    RestStaysLive(s, due, o, now, next);
    assert forall i | 0 <= i < |due[1..]| :: due[1..][i] == due[i + 1];
  }

  /** Preparing a candidate fails exactly when the clock would go back, and otherwise expires exactly
      what is overdue. */
  lemma PreparationIsExact(s: SoundLedger, o: string, now: int)
    ensures if o in s.lastClock && now < s.lastClock[o] then Prepare(s, o, now) == Err(ClockRegression)
            else Prepare(s, o, now).Ok? && OnlyExpires(s, Prepare(s, o, now).value, o, now)
  {
    hide Inv, ExpiresThose, Advances, Elsewhere, ExpireAll, Due, OnlyExpires;
    if !(o in s.lastClock && now < s.lastClock[o]) {
      var ticked := TickAdvances(s, o, now);
      MembersAreDistinct(ticked);
      var due := Due(ticked.reservations, o, now);
      DueIsDistinct(ticked.reservations, o, now);
      ExpiringAll(ticked, due, o, now);
      TickedExpires(s, ticked, ExpireAll(ticked, due, now).value, due, o, now);
    }
  }

  lemma TickedExpires(s: Ledger, ticked: Ledger, c: Ledger, due: seq<Reservation>, o: string, now: int)
    requires ticked == s.(lastClock := s.lastClock[o := now]) && due == Due(s.reservations, o, now)
    requires ExpiresThose(ticked, c, due, o, now)
    ensures OnlyExpires(s, c, o, now)
  {
    hide Due, IsExpiry, ExpiryEvents, Emits;
    forall i | 0 <= i < |s.reservations|
      ensures c.reservations[i] ==
              if s.reservations[i].organizationId == o && s.reservations[i].state == Reserved &&
                 s.reservations[i].expiresAt <= now
              then s.reservations[i].(state := Expired) else s.reservations[i]
    {
      assert s.reservations[i] in s.reservations;
    }
  }

  /* ---------- Exactly which windows are touched ---------- */

  /** The windows in which a live reservation of the tenant has outlived its time at `now`. */
  function OverdueWindows(rs: seq<Reservation>, o: string, now: int): set<AggregateKey> {
    set r | r in rs && r.organizationId == o && r.state == Reserved && r.expiresAt <= now ::
      AggregateKey(r.organizationId, r.budgetId, r.window.index)
  }

  /** What settling one reservation of the window `k` does to the index: its totals are stamped, and
      the window is marked. */
  ghost predicate Stamps(s: Ledger, s': Ledger, k: AggregateKey, now: int) {
    && k in s'.aggregates && s'.aggregates[k].updatedAt == now
    && s'.aggregates == s.aggregates[k := s'.aggregates[k]]
    && s'.reconciled == s.reconciled[k := Match]
  }

  lemma SettlingStamps(s: SoundLedger, r: Reservation, t: Transition, subject: Subject)
    requires MaySettle(s, r, t)
    ensures Settle(s, r, t, subject).Ok?
    ensures Stamps(s, Settle(s, r, t, subject).value,
                   AggregateKey(r.organizationId, r.budgetId, r.window.index), t.occurredAt)
  {
    hide Inv, Settle, MarkReconciled, Evolves;
    MemberIsOk(s, r) by {
      assert r in s.reservations;
    }
    var s' := SettleKeeps(s, r, t, subject);
    FoundBudget(s, r.organizationId, r.budgetId);
    SettledStamp(s, r, t, subject);
  }

  lemma SettledStamp(s: Ledger, r: Reservation, t: Transition, subject: Subject)
    requires Settle(s, r, t, subject).Ok? && t.organizationId == r.organizationId
    requires BudgetKey(r.organizationId, r.budgetId) in s.budgets
    requires s.budgets[BudgetKey(r.organizationId, r.budgetId)].organizationId == r.organizationId
    requires s.budgets[BudgetKey(r.organizationId, r.budgetId)].budgetId == r.budgetId
    ensures ReservationKey(r) in Settle(s, r, t, subject).value.aggregates
    ensures Settle(s, r, t, subject).value.aggregates[ReservationKey(r)].updatedAt == t.occurredAt
  {
    hide Recomputed, StatusOf, EventOf, EntryOf, WithState;
  }

  /** Exactly the windows `stamped` have new totals as of `now`, and exactly the windows `marked` have
      been marked. */
  ghost predicate Touches(s: Ledger, c: Ledger, stamped: set<AggregateKey>, marked: set<AggregateKey>, now: int) {
    forall k: AggregateKey ::
      && (k in c.reconciled <==> k in s.reconciled || k in marked)
      && (if k in stamped then k in c.aggregates && c.aggregates[k].updatedAt == now
          else (k in c.aggregates <==> k in s.aggregates) && (k in s.aggregates ==> c.aggregates[k] == s.aggregates[k]))
  }

  ghost predicate TouchesOverdue(s: Ledger, c: Ledger, rs: seq<Reservation>, o: string, now: int) {
    Touches(s, c, OverdueWindows(rs, o, now), OverdueWindows(rs, o, now), now)
  }

  lemma {:induction false} TouchingAll(s: SoundLedger, due: seq<Reservation>, o: string, now: int)
    requires AllLive(s, due, o, now) && o in s.lastClock && s.lastClock[o] == now
    ensures ExpireAll(s, due, now).Ok? && TouchesOverdue(s, ExpireAll(s, due, now).value, due, o, now)
    decreases |due|
  {
    hide Inv, Settle, Advances, SettleEffect, TouchesOverdue, Stamps;
    if due == [] {
      NothingTouched(s, o, now);
    } else {
      assert due[0] in due;
      MemberIsOk(s, due[0]);
      MayExpire(s, due[0], o, now);
      var next := SettleAdvances(s, due[0], ExpiryOf(due[0], now), System);
      SettlingStamps(s, due[0], ExpiryOf(due[0], now), System);
      AfterExpiring(s, due, o, now, next);
      TouchingAll(next, due[1..], o, now);
      TouchingOn(s, next, ExpireAll(next, due[1..], now).value, due, o, now);
    }
  }

  lemma NothingTouched(s: Ledger, o: string, now: int)
    ensures TouchesOverdue(s, s, [], o, now)
  {
  }

  lemma TouchingOn(s: Ledger, next: Ledger, c: Ledger, due: seq<Reservation>, o: string, now: int)
    requires due != [] && IsDue(due[0], o, now)
    requires Stamps(s, next, ReservationKey(due[0]), now) && TouchesOverdue(next, c, due[1..], o, now)
    ensures TouchesOverdue(s, c, due, o, now)
  {
    assert due == [due[0]] + due[1..];
    assert OverdueWindows(due, o, now) == {ReservationKey(due[0])} + OverdueWindows(due[1..], o, now);
  }

  /** Preparing a candidate stamps and marks exactly the windows that lose a reservation. */
  lemma PreparationTouches(s: SoundLedger, o: string, now: int)
    requires Prepare(s, o, now).Ok?
    ensures TouchesOverdue(s, Prepare(s, o, now).value, s.reservations, o, now)
  {
    hide Inv, Advances, Elsewhere, ExpireAll, Due, TouchesOverdue, OverdueWindows;
    var ticked := TickAdvances(s, o, now);
    MembersAreDistinct(ticked);
    var due := Due(ticked.reservations, o, now);
    DueIsDistinct(ticked.reservations, o, now);
    TouchingAll(ticked, due, o, now);
    DueAreOverdue(s.reservations, o, now);
    TickedTouches(s, ticked, ExpireAll(ticked, due, now).value, due, o, now);
  }

  lemma DueAreOverdue(rs: seq<Reservation>, o: string, now: int)
    ensures OverdueWindows(Due(rs, o, now), o, now) == OverdueWindows(rs, o, now)
  {
    hide Due;
  }

  lemma TickedTouches(s: Ledger, ticked: Ledger, c: Ledger, due: seq<Reservation>, o: string, now: int)
    requires ticked.aggregates == s.aggregates && ticked.reconciled == s.reconciled
    requires OverdueWindows(due, o, now) == OverdueWindows(s.reservations, o, now)
    requires TouchesOverdue(ticked, c, due, o, now)
    ensures TouchesOverdue(s, c, s.reservations, o, now)
  {
  }

  /** One more window is stamped and marked on top of the candidate. */
  lemma StampedToo(s: Ledger, c: Ledger, s': Ledger, o: string, now: int, k: AggregateKey)
    requires TouchesOverdue(s, c, s.reservations, o, now) && Stamps(c, s', k, now)
    ensures var touched := OverdueWindows(s.reservations, o, now) + {k}; Touches(s, s', touched, touched, now)
  {
    hide OverdueWindows;
  }

  /** One more window is only marked. */
  lemma MarkedToo(s: Ledger, c: Ledger, s': Ledger, o: string, now: int, k: AggregateKey)
    requires TouchesOverdue(s, c, s.reservations, o, now)
    requires s'.aggregates == c.aggregates && s'.reconciled == c.reconciled[k := Match]
    ensures var overdue := OverdueWindows(s.reservations, o, now); Touches(s, s', overdue, overdue + {k}, now)
  {
    hide OverdueWindows;
  }

  /* ---------- What is held ---------- */

  /** How much of dimension `d` the live reservations under `k` hold at `now`. */
  function LiveIn(rs: seq<Reservation>, k: AggregateKey, d: nat, now: int): nat
    requires d < COUNT
  {
    if rs == [] then 0
    else
      var last := rs[|rs| - 1];
      LiveIn(rs[..|rs| - 1], k, d, now) +
      if last.organizationId == k.organizationId && last.budgetId == k.budgetId &&
         last.window.index == k.windowIndex && last.state == Reserved && now < last.expiresAt
      then last.requested[d] else 0
  }

  /** How much of dimension `d` the usage entries of the window `k` have booked. */
  function UsedIn(es: seq<UsageEntry>, k: AggregateKey, d: nat): nat
    requires d < COUNT
  {
    if es == [] then 0
    else
      var last := es[|es| - 1];
      UsedIn(es[..|es| - 1], k, d) +
      if last.organizationId == k.organizationId && last.budgetId == k.budgetId && last.windowIndex == k.windowIndex
      then last.dimensions[d] else 0
  }

  /** What is used up or still held in the window `k` at `now`. */
  function HeldAt(s: Ledger, k: AggregateKey, d: nat, now: int): nat
    requires d < COUNT
  {
    UsedIn(s.usageEntries, k, d) + LiveIn(s.reservations, k, d, now)
  }

  lemma {:induction false} UsedIsCommitted(es: seq<UsageEntry>, k: AggregateKey, d: nat)
    requires d < COUNT
    ensures CommittedIn(es, k, d) == UsedIn(es, k, d)
  {
    if es != [] {
      UsedIsCommitted(es[..|es| - 1], k, d);
    }
  }

  lemma {:induction false} LapsedLeavesLive(rs: seq<Reservation>, rs': seq<Reservation>, k: AggregateKey, d: nat,
                                            now: int)
    requires d < COUNT && Lapsed(rs, rs', k.organizationId, now)
    ensures ReservedIn(rs', k, d) == LiveIn(rs, k, d, now)
  {
    if rs != [] {
      LapsedLeavesLive(rs[..|rs| - 1], rs'[..|rs'| - 1], k, d, now);
    }
  }

  /** After preparation the stored totals are what is committed and what is held. */
  lemma PreparedTotals(s: Ledger, c: SoundLedger, k: AggregateKey, d: nat, now: int)
    requires d < COUNT && OnlyExpires(s, c, k.organizationId, now)
    ensures CommittedAt(c, k)[d] == UsedIn(s.usageEntries, k, d)
    ensures ReservedAt(c, k)[d] == LiveIn(s.reservations, k, d, now)
  {
    hide RecordsOk, KeysOk, LogsOk, CapsOk, MarksOk, CommittedIn, ReservedIn, CommittedAt, ReservedAt, LiveIn, UsedIn;
    UsedIsCommitted(s.usageEntries, k, d);
    LapsedLeavesLive(s.reservations, c.reservations, k, d, now);
    assert BooksOk(c);
    assert CommittedAt(c, k)[d] == CommittedIn(c.usageEntries, k, d);
    assert ReservedAt(c, k)[d] == ReservedIn(c.reservations, k, d);
  }

  /** What has lapsed was not live any more. */
  lemma {:induction false} LapsedKeepsLive(rs: seq<Reservation>, rs': seq<Reservation>, k: AggregateKey, d: nat,
                                           now: int)
    requires d < COUNT && Lapsed(rs, rs', k.organizationId, now)
    ensures LiveIn(rs', k, d, now) == LiveIn(rs, k, d, now)
  {
    if rs != [] {
      LapsedKeepsLive(rs[..|rs| - 1], rs'[..|rs'| - 1], k, d, now);
    }
  }

  /** Preparation changes neither what is used nor what is live. */
  lemma ExpiryIsNeutral(s: Ledger, c: Ledger, k: AggregateKey, d: nat, now: int)
    requires d < COUNT && OnlyExpires(s, c, k.organizationId, now)
    ensures UsedIn(c.usageEntries, k, d) == UsedIn(s.usageEntries, k, d)
    ensures LiveIn(c.reservations, k, d, now) == LiveIn(s.reservations, k, d, now)
  {
    LapsedKeepsLive(s.reservations, c.reservations, k, d, now);
  }

  predicate IsLive(r: Reservation, k: AggregateKey, now: int) {
    && r.organizationId == k.organizationId && r.budgetId == k.budgetId && r.window.index == k.windowIndex
    && r.state == Reserved && now < r.expiresAt
  }

  lemma LiveAppended(rs: seq<Reservation>, r: Reservation, k: AggregateKey, d: nat, now: int)
    requires d < COUNT
    ensures LiveIn(rs + [r], k, d, now) == LiveIn(rs, k, d, now) + if IsLive(r, k, now) then r.requested[d] else 0
  {
    assert (rs + [r])[..|rs|] == rs;
  }

  /** A reservation that leaves the reserved state takes its amounts with it. */
  lemma {:induction false} LiveUpdated(rs: seq<Reservation>, i: nat, state: ReservationState, k: AggregateKey, d: nat,
                                       now: int)
    requires d < COUNT && i < |rs| && state != Reserved
    ensures LiveIn(rs, k, d, now) ==
            LiveIn(rs[i := rs[i].(state := state)], k, d, now) + if IsLive(rs[i], k, now) then rs[i].requested[d] else 0
  {
    var rs' := rs[i := rs[i].(state := state)];
    if i < |rs| - 1 {
      LiveUpdated(rs[..|rs| - 1], i, state, k, d, now);
      assert rs'[..|rs| - 1] == rs[..|rs| - 1][i := rs[i].(state := state)];
    } else {
      assert rs'[..|rs| - 1] == rs[..|rs| - 1];
    }
  }

  lemma UsedAppended(es: seq<UsageEntry>, e: UsageEntry, k: AggregateKey, d: nat)
    requires d < COUNT
    ensures UsedIn(es + [e], k, d) ==
            UsedIn(es, k, d) +
            if e.organizationId == k.organizationId && e.budgetId == k.budgetId && e.windowIndex == k.windowIndex
            then e.dimensions[d] else 0
  {
    assert (es + [e])[..|es|] == es;
  }
}
