/** The exact answer of every call of a run, told from the ledger the run has reached: from the
    usage entries and the reservations that are still live at the time of the call. */
module LedgerAnswers {
  import opened Results
  import opened Dimensions
  import opened UsageModels
  import opened LedgerSpec
  import opened LedgerInvariant
  import opened LedgerSequences
  import opened LedgerSettlement
  import opened LedgerAdmission
  import opened LedgerRuns
  import opened LedgerExpiry
  import opened LedgerRetries

  /* ---------- Totals and windows ---------- */

  /** What a call asks for in dimension `d`: nothing where it names no amount. */
  function AskedIn(requested: map<string, int>, d: nat): int
    requires d < COUNT
  {
    if NAMES[d] in requested then requested[NAMES[d]] else 0
  }

  function Held(s: Ledger, k: AggregateKey, now: int): (r: seq<int>)
    ensures |r| == COUNT && forall d | 0 <= d < COUNT :: r[d] == HeldAt(s, k, d, now)
  {
    seq(COUNT, d requires 0 <= d < COUNT => HeldAt(s, k, d, now))
  }

  /** What the window `k` would hold at `now` with the request on top. */
  function Demand(s: Ledger, k: AggregateKey, requested: map<string, int>, now: int): (r: seq<int>)
    ensures |r| == COUNT && forall d | 0 <= d < COUNT :: r[d] == HeldAt(s, k, d, now) + AskedIn(requested, d)
  {
    seq(COUNT, d requires 0 <= d < COUNT => HeldAt(s, k, d, now) + AskedIn(requested, d))
  }

  function Whole(n: nat, d: nat): nat
    requires d > 0
  {
    n / d
  }

  /** The window that contains `now`: as many whole lengths after the epoch as have passed. */
  function WindowOf(b: Budget, now: int): Window
    requires b.windowEpoch <= now
  {
    var index := Whole(now - b.windowEpoch, b.windowSeconds);
    var start := b.windowEpoch + index * b.windowSeconds;
    Window(index, start, start + b.windowSeconds)
  }

  function KeyAt(b: Budget, now: int): AggregateKey
    requires b.windowEpoch <= now
  {
    AggregateKey(b.organizationId, b.budgetId, Whole(now - b.windowEpoch, b.windowSeconds))
  }

  ghost predicate SomeOver(total: seq<int>, bound: seq<int>)
    requires |total| == |bound| == COUNT
  {
    exists d | 0 <= d < COUNT :: total[d] > bound[d]
  }

  ghost predicate Overflows(total: seq<int>)
    requires |total| == COUNT
  {
    exists d | 0 <= d < COUNT :: total[d] > 9_000_000_000_000_000
  }

  /** The state of a budget whose window holds `total`. */
  ghost predicate IsState(b: Budget, total: seq<int>, state: BudgetStateCode)
    requires |total| == COUNT
  {
    if !b.enabled then state == Suspended
    else if exists d | 0 <= d < COUNT :: b.limits[d] > 0 && total[d] >= b.limits[d] then state == Exhausted
    else if exists d | 0 <= d < COUNT :: b.limits[d] > 0 && total[d] * 10_000 >= b.limits[d] * b.warningBasisPoints
    then state == Warning
    else state == Available
  }

  predicate GoesBack(s: Ledger, o: string, now: int) {
    o in s.lastClock && now < s.lastClock[o]
  }

  /* ---------- From the candidate to the ledger ---------- */

  lemma WindowIsExact(b: Budget, now: int)
    ensures WindowAt(b, now) == if now < b.windowEpoch then Err(WindowNotStarted) else Ok(WindowOf(b, now))
  {
  }

  lemma StateIsExact(c: SoundLedger, b: Budget, index: nat, total: seq<int>)
    requires |total| == COUNT
    requires forall d | 0 <= d < COUNT ::
               total[d] == CommittedAt(c, KeyOf(b, index))[d] + ReservedAt(c, KeyOf(b, index))[d]
    ensures BudgetState(c, b, index).Ok? && IsState(b, total, BudgetState(c, b, index).value)
  {
    hide RecordsOk, KeysOk, LogsOk, BooksOk, CapsOk;
    BudgetStateIsSound(c, b, index);
    assert MarksOk(c);
    var aggregate := AggregateAt(c, b, index, WindowStart(b, index));
    assert total == Plus(aggregate.committed, aggregate.reserved);
  }

  lemma CandidateHolds(s: Ledger, c: SoundLedger, k: AggregateKey, now: int)
    requires OnlyExpires(s, c, k.organizationId, now)
    ensures forall d | 0 <= d < COUNT :: Held(s, k, now)[d] == CommittedAt(c, k)[d] + ReservedAt(c, k)[d]
  {
    hide Inv, OnlyExpires;
    forall d | 0 <= d < COUNT ensures HeldAt(s, k, d, now) == CommittedAt(c, k)[d] + ReservedAt(c, k)[d] {
      PreparedTotals(s, c, k, d, now);
    }
  }

  ghost predicate IsAsked(amounts: Dims, requested: map<string, int>) {
    forall d | 0 <= d < COUNT :: amounts[d] == AskedIn(requested, d)
  }

  lemma AcceptedIsAsked(requested: map<string, int>, refusal: Denial, requireNonzero: bool)
    ensures var r := Normalized(requested, refusal, requireNonzero);
            if Acceptable(requested, requireNonzero) then r.Ok? && IsAsked(r.value, requested) else r == Err(refusal)
  {
  }

  lemma ProjectionIsExact(s: Ledger, c: SoundLedger, b: Budget, now: int, requested: map<string, int>, amounts: Dims)
    requires OnlyExpires(s, c, b.organizationId, now) && b.windowEpoch <= now && IsAsked(amounts, requested)
    ensures var total := Demand(s, KeyAt(b, now), requested, now);
            Projected(c, b, KeyAt(b, now).windowIndex, amounts, now) ==
            if Overflows(total) then Err(DimensionOverflow) else Ok(total)
  {
    hide Inv, OnlyExpires, HeldAt;
    var k, total := KeyAt(b, now), Demand(s, KeyAt(b, now), requested, now);
    CandidateHolds(s, c, k, now);
    var aggregate := AggregateAt(c, b, k.windowIndex, now);
    assert aggregate.committed == CommittedAt(c, k) && aggregate.reserved == ReservedAt(c, k);
    forall d | 0 <= d < COUNT ensures total[d] == Plus(Plus(aggregate.committed, aggregate.reserved), amounts)[d] {
      assert total[d] == Held(s, k, now)[d] + amounts[d];
    }
    assert total == Plus(Plus(aggregate.committed, aggregate.reserved), amounts);
  }

  /* ---------- Reserve ---------- */

  /** Reservation `r` is what the caller asked for, in the current window, when the window would hold
      `total` with it. */
  ghost predicate IsGranted(r: Reservation, b: Budget, who: Identity, terms: ReserveTerms, total: seq<int>, now: int)
    requires b.windowEpoch <= now
  {
    var request := ReserveRequest(who.organizationId, terms.budgetId, terms.budgetDigest, terms.scopeType,
                                  terms.scopeId, terms.operationId, terms.key, r.requested, terms.ttlSeconds);
    var w := WindowOf(b, now);
    && r == Reservation(ReservationId(request), who.organizationId, who.tokenDigest, terms.budgetId,
                        terms.budgetDigest, terms.scopeType, terms.scopeId, terms.operationId, request, terms.key,
                        r.requested, w, now, if now + terms.ttlSeconds <= w.end then now + terms.ttlSeconds else w.end,
                        b.enforcement, r.exceeded, Reserved)
    && IsAsked(r.requested, terms.requested)
    && NamesThoseOver(r.exceeded, total, b.limits)
  }

  /** The answer of a reserve call that has found its budget enabled, its lifetime valid and the first
      window begun. */
  ghost predicate AnswersDemand(b: Budget, who: Identity, terms: ReserveTerms, total: seq<int>, now: int, fails: bool,
                                answer: Response)
    requires |total| == COUNT && b.windowEpoch <= now
  {
    if Overflows(total) then answer == Refused(DimensionOverflow)
    else if b.enforcement == Hard && SomeOver(total, b.limits)
    then answer == Refused(if fails then StoreCommitFailed else BudgetExceeded)
    else if fails then answer == Refused(StoreCommitFailed)
    else
      && answer.ReservationShown?
      && IsGranted(answer.reservation, b, who, terms, total, now)
      && IsState(b, total, answer.budgetState)
  }

  /** The answer of a reserve call that has found its budget. */
  ghost predicate AnswersFound(s: Ledger, b: Budget, who: Identity, terms: ReserveTerms, now: int, fails: bool,
                               answer: Response)
  {
    if !b.enabled then answer == Refused(if fails then StoreCommitFailed else BudgetSuspended)
    else if terms.ttlSeconds < 1 || terms.ttlSeconds > 3600 || terms.ttlSeconds > b.reservationTtlSeconds
    then answer == Refused(ReservationTtlInvalid)
    else if now < b.windowEpoch then answer == Refused(WindowNotStarted)
    else AnswersDemand(b, who, terms, Demand(s, KeyAt(b, now), terms.requested, now), now, fails, answer)
  }

  /** The answer of a reserve call under a fresh key. */
  ghost predicate AnswersReserve(s: Ledger, who: Identity, terms: ReserveTerms, now: int, fails: bool, answer: Response)
  {
    if !Acceptable(terms.requested, true) then answer == Refused(RequestedInvalid)
    else if GoesBack(s, who.organizationId, now) then answer == Refused(ClockRegression)
    else if BudgetKey(who.organizationId, terms.budgetId) !in s.budgets then answer == Refused(BudgetNotFound)
    else
      var b := s.budgets[BudgetKey(who.organizationId, terms.budgetId)];
      if b.budgetDigest != terms.budgetDigest then answer == Refused(BudgetDigestMismatch)
      else if b.scopeType != terms.scopeType || b.scopeId != terms.scopeId then answer == Refused(BudgetScopeMismatch)
      else AnswersFound(s, b, who, terms, now, fails, answer)
  }

  lemma GrantedIsExact(b: Budget, who: Identity, terms: ReserveTerms, amounts: Dims, total: Dims, now: int)
    requires b.windowEpoch <= now && IsAsked(amounts, terms.requested)
    requires b.budgetId == terms.budgetId && b.budgetDigest == terms.budgetDigest
    requires b.scopeType == terms.scopeType && b.scopeId == terms.scopeId
    ensures IsGranted(NewReservation(b, who, ReserveRequestOf(who, terms, amounts), WindowOf(b, now),
                                     ExceededDimensions(total, b.limits), now), b, who, terms, total, now)
  {
    ExceededNamesThoseOver(total, b.limits);
  }

  lemma AdmittedHolds(c: Ledger, who: Identity, r: Reservation, next: Ledger, k: AggregateKey, total: Dims)
    requires AdmitEffect(c, who, r, next) && k == ReservationKey(r)
    requires forall d | 0 <= d < COUNT :: total[d] == CommittedAt(c, k)[d] + ReservedAt(c, k)[d] + r.requested[d]
    ensures forall d | 0 <= d < COUNT :: total[d] == CommittedAt(next, k)[d] + ReservedAt(next, k)[d]
  {
  }

  lemma GrantedState(s: Ledger, c: SoundLedger, b: Budget, who: Identity, terms: ReserveTerms, r: Reservation,
                     next: SoundLedger, now: int)
    requires OnlyExpires(s, c, who.organizationId, now) && b.organizationId == who.organizationId
    requires b.windowEpoch <= now && ReservationKey(r) == KeyAt(b, now) && IsAsked(r.requested, terms.requested)
    requires AdmitEffect(c, who, r, next) && !Overflows(Demand(s, KeyAt(b, now), terms.requested, now))
    ensures BudgetState(next, b, KeyAt(b, now).windowIndex).Ok?
    ensures IsState(b, Demand(s, KeyAt(b, now), terms.requested, now),
                    BudgetState(next, b, KeyAt(b, now).windowIndex).value)
  {
    hide Inv, OnlyExpires, AdmitEffect, CommittedAt, ReservedAt, HeldAt, IsState, BudgetState;
    var k, total := KeyAt(b, now), Demand(s, KeyAt(b, now), terms.requested, now);
    CandidateHolds(s, c, k, now);
    forall d | 0 <= d < COUNT ensures total[d] == CommittedAt(c, k)[d] + ReservedAt(c, k)[d] + r.requested[d] {
      assert total[d] == Held(s, k, now)[d] + r.requested[d];
    }
    AdmittedHolds(c, who, r, next, k, total);
    StateIsExact(next, b, k.windowIndex, total);
  }

  lemma GrantIsExact(s: Ledger, c: SoundLedger, b: Budget, who: Identity, terms: ReserveTerms, amounts: Dims, now: int,
                     fails: bool)
    requires OnlyExpires(s, c, who.organizationId, now) && CaughtUp(c, who.organizationId, now)
    requires FindBudget(c, who.organizationId, terms.budgetId, terms.budgetDigest, terms.scopeType, terms.scopeId) ==
             Ok(b)
    requires b.organizationId == who.organizationId && b.budgetId == terms.budgetId
    requires IdempotencyKey(who.organizationId, Reserved, terms.key) !in c.idempotency
    requires b.enabled && 1 <= terms.ttlSeconds <= Min(3600, b.reservationTtlSeconds) && b.windowEpoch <= now
    requires IsAsked(amounts, terms.requested)
    ensures AnswersDemand(b, who, terms, Demand(s, KeyAt(b, now), terms.requested, now), now, fails,
                          ReserveFrom(s, c, b, who, ReserveRequestOf(who, terms, amounts), now, fails).1)
  {
    hide Inv, Evolves, OnlyExpires, Admit, BudgetState, Projected, AdmitEffect, MayAdmit, ExceededDimensions, WindowAt,
        HeldAt, IsState, IsGranted, NewReservation, Demand;
    var k, total := KeyAt(b, now), Demand(s, KeyAt(b, now), terms.requested, now);
    WindowIsExact(b, now);
    ProjectionIsExact(s, c, b, now, terms.requested, amounts);
    if !Overflows(total) {
      var exceeded := ExceededDimensions(total, b.limits);
      if exceeded == [] || b.enforcement != Hard {
        var request := ReserveRequestOf(who, terms, amounts);
        MayReserve(c, b, who, request, now, WindowOf(b, now), total);
        var r := NewReservation(b, who, request, WindowOf(b, now), exceeded, now);
        var next := AdmitKeeps(c, b, who, r);
        GrantedIsExact(b, who, terms, amounts, total, now);
        GrantedState(s, c, b, who, terms, r, next, now);
      }
    }
  }

  /** The candidate of a call whose clock does not go back. */
  lemma Candidate(s: SoundLedger, o: string, now: int) returns (c: SoundLedger)
    requires !GoesBack(s, o, now)
    ensures Prepare(s, o, now) == Ok(c) && OnlyExpires(s, c, o, now) && CaughtUp(c, o, now)
    ensures c.budgets == s.budgets && c.idempotency == s.idempotency
  {
    hide Inv, Advances, OnlyExpires, CaughtUp, Prepare;
    c := PrepareKeeps(s, o, now);
    PreparationIsExact(s, o, now);
  }

  lemma Regression(s: SoundLedger, o: string, now: int)
    requires GoesBack(s, o, now)
    ensures Prepare(s, o, now) == Err(ClockRegression)
  {
  }

  lemma FoundIsExact(s: Ledger, c: SoundLedger, b: Budget, who: Identity, terms: ReserveTerms, amounts: Dims, now: int,
                     fails: bool)
    requires OnlyExpires(s, c, who.organizationId, now) && CaughtUp(c, who.organizationId, now)
    requires FindBudget(c, who.organizationId, terms.budgetId, terms.budgetDigest, terms.scopeType, terms.scopeId) ==
             Ok(b)
    requires IdempotencyKey(who.organizationId, Reserved, terms.key) !in c.idempotency
    requires IsAsked(amounts, terms.requested)
    ensures AnswersFound(s, b, who, terms, now, fails,
                         ReserveFrom(s, c, b, who, ReserveRequestOf(who, terms, amounts), now, fails).1)
  {
    hide Inv, OnlyExpires, CaughtUp, AnswersDemand, Demand, WindowAt, Projected, Admit, WithDenial, BudgetState;
    FoundBudget(c, who.organizationId, terms.budgetId);
    WindowIsExact(b, now);
    if b.enabled && 1 <= terms.ttlSeconds <= Min(3600, b.reservationTtlSeconds) && b.windowEpoch <= now {
      GrantIsExact(s, c, b, who, terms, amounts, now, fails);
    }
  }

  /** For every run and every reserve call under a fresh key, the one answer it gives. Whether it is
      granted depends on what the window holds at the time of the call -- its usage entries and the
      reservations still live, each counted once -- plus the amounts asked for. */
  lemma ReserveIsExact(es: seq<Event>, who: Identity, terms: ReserveTerms, now: int, fails: bool)
    requires IdempotencyKey(who.organizationId, Reserved, terms.key) !in Run(EMPTY, es).idempotency
    ensures AnswersReserve(Run(EMPTY, es), who, terms, now, fails,
                           Step(Run(EMPTY, es), Event(Reserve(who, terms, now), fails)).1)
  {
    hide Inv, Evolves, Prepare, Normalized, ReserveFrom, OnlyExpires, CaughtUp, AnswersFound, Acceptable, ReplayReserve;
    var s := Reach(es);
    AcceptedIsAsked(terms.requested, RequestedInvalid, true);
    if GoesBack(s, who.organizationId, now) {
      Regression(s, who.organizationId, now);
    } else {
      var c := Candidate(s, who.organizationId, now);
      var b := FindBudget(c, who.organizationId, terms.budgetId, terms.budgetDigest, terms.scopeType, terms.scopeId);
      if Acceptable(terms.requested, true) && b.Ok? {
        var amounts := Normalized(terms.requested, RequestedInvalid, true).value;
        FoundIsExact(s, c, b.value, who, terms, amounts, now, fails);
      }
    }
  }

  /* ---------- Reserve under a key that is bound ---------- */

  /** The request is the caller's, with the amounts the caller named. */
  ghost predicate IsRequestOf(q: Request, who: Identity, terms: ReserveTerms) {
    && q.ReserveRequest?
    && q == ReserveRequest(who.organizationId, terms.budgetId, terms.budgetDigest, terms.scopeType, terms.scopeId,
                           terms.operationId, terms.key, q.requested, terms.ttlSeconds)
    && IsAsked(q.requested, terms.requested)
  }

  /** What `r` looks like to tenant `o` at `now`: a live reservation whose time is up has expired. */
  function SeenAt(r: Reservation, o: string, now: int): Reservation {
    if r.organizationId == o && r.state == Reserved && r.expiresAt <= now then r.(state := Expired) else r
  }

  /** The reservation stored under `id`, as it is at `now`, with the state of its budget then. */
  ghost predicate ShowsStored(s: Ledger, o: string, id: Id, now: int, answer: Response) {
    && answer.ReservationShown?
    && (exists i | 0 <= i < |s.reservations| ::
          s.reservations[i].reservationId == id && answer.reservation == SeenAt(s.reservations[i], o, now))
    && var r := answer.reservation;
       && BudgetKey(o, r.budgetId) in s.budgets
       && IsState(s.budgets[BudgetKey(o, r.budgetId)],
                  Held(s, AggregateKey(o, r.budgetId, r.window.index), now), answer.budgetState)
  }

  lemma StoredIsSeen(s: Ledger, c: Ledger, o: string, now: int, r: Reservation)
    requires OnlyExpires(s, c, o, now) && r in c.reservations
    ensures exists i | 0 <= i < |s.reservations| ::
              s.reservations[i].reservationId == r.reservationId && r == SeenAt(s.reservations[i], o, now)
  {
    var i :| 0 <= i < |c.reservations| && c.reservations[i] == r;
    assert r == SeenAt(s.reservations[i], o, now);
  }

  lemma ReplayShowsStored(s: Ledger, c: SoundLedger, o: string, key: string, request: Request, now: int)
    requires OnlyExpires(s, c, o, now) && c.budgets == s.budgets
    requires IdempotencyKey(o, Reserved, key) in c.idempotency
    requires c.idempotency[IdempotencyKey(o, Reserved, key)].request == request
    ensures ShowsStored(s, o, c.idempotency[IdempotencyKey(o, Reserved, key)].id, now,
                        ReplayReserve(c, c.idempotency[IdempotencyKey(o, Reserved, key)], o, request))
  {
    hide Inv, OnlyExpires, BudgetState, FindReservation, HeldAt, IsState, SeenAt;
    var binding := c.idempotency[IdempotencyKey(o, Reserved, key)];
    ReplayReserveIsSound(c, o, key, request);
    var r := ReplayReserve(c, binding, o, request).reservation;
    StoredIsSeen(s, c, o, now, r);
    FoundBudget(c, o, r.budgetId);
    var b := c.budgets[BudgetKey(o, r.budgetId)];
    CandidateHolds(s, c, KeyOf(b, r.window.index), now);
    StateIsExact(c, b, r.window.index, Held(s, KeyOf(b, r.window.index), now));
  }

  /** A reserve call under a key that is bound changes nothing: it shows the reservation of the first
      call as it is by now, or refuses if this is not the request the key was bound with. */
  lemma ReserveReplayIsExact(es: seq<Event>, who: Identity, terms: ReserveTerms, now: int, fails: bool)
    requires IdempotencyKey(who.organizationId, Reserved, terms.key) in Run(EMPTY, es).idempotency
    ensures var s := Run(EMPTY, es);
            var binding := s.idempotency[IdempotencyKey(who.organizationId, Reserved, terms.key)];
            var (s', answer) := Step(s, Event(Reserve(who, terms, now), fails));
            && s' == s
            && if !Acceptable(terms.requested, true) then answer == Refused(RequestedInvalid)
               else if GoesBack(s, who.organizationId, now) then answer == Refused(ClockRegression)
               else if !IsRequestOf(binding.request, who, terms) then answer == Refused(IdempotencyConflict)
               else ShowsStored(s, who.organizationId, binding.id, now, answer)
  {
    hide Inv, Evolves, Prepare, Normalized, OnlyExpires, CaughtUp, Acceptable, ReplayReserve, ShowsStored;
    var s := Reach(es);
    AcceptedIsAsked(terms.requested, RequestedInvalid, true);
    if GoesBack(s, who.organizationId, now) {
      Regression(s, who.organizationId, now);
    } else if Acceptable(terms.requested, true) {
      var c := Candidate(s, who.organizationId, now);
      var amounts := Normalized(terms.requested, RequestedInvalid, true).value;
      var request := ReserveRequestOf(who, terms, amounts);
      var binding := s.idempotency[IdempotencyKey(who.organizationId, Reserved, terms.key)];
      ReplayReserveIsSound(c, who.organizationId, terms.key, request);
      SameRequest(binding.request, who, terms, amounts);
      if binding.request == request {
        ReplayShowsStored(s, c, who.organizationId, terms.key, request, now);
      }
    }
  }

  lemma SameRequest(q: Request, who: Identity, terms: ReserveTerms, amounts: Dims)
    requires IsAsked(amounts, terms.requested)
    ensures IsRequestOf(q, who, terms) <==> q == ReserveRequestOf(who, terms, amounts)
  {
    if IsRequestOf(q, who, terms) {
      assert q.requested == amounts;
    }
  }

  /* ---------- Commit and release ---------- */

  function Asked(requested: map<string, int>): (r: seq<int>)
    ensures |r| == COUNT && forall d | 0 <= d < COUNT :: r[d] == AskedIn(requested, d)
  {
    seq(COUNT, d requires 0 <= d < COUNT => AskedIn(requested, d))
  }

  const NOTHING: seq<int> := [0, 0, 0, 0, 0, 0, 0, 0, 0, 0, 0]

  ghost predicate IsTransitionOf(t: Transition, o: string, id: Id, key: string, target: ReservationState,
                                 amounts: seq<int>, reason: string, now: int)
  {
    var request := TransitionRequest(o, id, target, key, t.observed, reason);
    && t == Transition(TransitionId(request), id, o, target, OfKey(key), request, t.observed, reason, now)
    && t.observed == amounts
  }

  /** The answer for the tenant's own reservation `r`. */
  ghost predicate AnswersFor(r: Reservation, key: string, target: ReservationState, amounts: seq<int>, reason: string,
                             now: int, fails: bool, answer: Response)
    requires |amounts| == COUNT
  {
    if r.state == Expired || (r.state == Reserved && r.expiresAt <= now) then answer == Refused(ReservationExpired)
    else if r.state != Reserved then answer == Refused(ReservationTerminal)
    else if target == Committed && SomeOver(amounts, r.requested) then answer == Refused(CommitExceedsReservation)
    else if fails then answer == Refused(StoreCommitFailed)
    else
      && answer.TransitionShown?
      && IsTransitionOf(answer.transition, r.organizationId, r.reservationId, key, target, amounts, reason, now)
  }

  predicate IsOwn(r: Reservation, o: string, id: Id) {
    r.reservationId == id && r.organizationId == o
  }

  /** The answer of a commit or release under a fresh key. */
  ghost predicate AnswersTransition(s: Ledger, o: string, id: Id, key: string, target: ReservationState,
                                    amounts: seq<int>, reason: string, now: int, fails: bool, answer: Response)
    requires |amounts| == COUNT
  {
    if GoesBack(s, o, now) then answer == Refused(ClockRegression)
    else if forall r | r in s.reservations :: !IsOwn(r, o, id) then answer == Refused(ReservationNotFound)
    else
      forall r | r in s.reservations && IsOwn(r, o, id) ::
        AnswersFor(r, key, target, amounts, reason, now, fails, answer)
  }

  /** The answer of a commit or release under a key that is bound. */
  ghost predicate RepeatsTransition(s: Ledger, o: string, id: Id, key: string, target: ReservationState,
                                    amounts: seq<int>, reason: string, now: int, answer: Response)
    requires IdempotencyKey(o, target, key) in s.idempotency
  {
    var binding := s.idempotency[IdempotencyKey(o, target, key)];
    if GoesBack(s, o, now) then answer == Refused(ClockRegression)
    else if !(binding.request.TransitionRequest? &&
              binding.request == TransitionRequest(o, id, target, key, binding.request.observed, reason) &&
              binding.request.observed == amounts)
    then answer == Refused(IdempotencyConflict)
    else
      && answer.TransitionShown?
      && answer.transition in s.transitions
      && answer.transition.transitionId == binding.id
  }

  lemma OwnIsFound(s: Ledger, c: SoundLedger, o: string, id: Id, now: int, r: Reservation)
    requires OnlyExpires(s, c, o, now) && r in s.reservations && IsOwn(r, o, id)
    ensures FindReservation(c.reservations, id) == Some(SeenAt(r, o, now))
  {
    hide Inv, FindReservation;
    var i :| 0 <= i < |s.reservations| && s.reservations[i] == r;
    assert c.reservations[i] == SeenAt(r, o, now);
    MembersAreDistinct(c);
    FindMember(c.reservations, c.reservations[i]);
  }

  lemma FoundIsOwn(s: Ledger, c: SoundLedger, o: string, id: Id, now: int, r: Reservation)
    requires OnlyExpires(s, c, o, now) && FindReservation(c.reservations, id) == Some(r) && r.organizationId == o
    ensures exists x | x in s.reservations :: IsOwn(x, o, id)
  {
    hide Inv, FindReservation;
    StoredIsSeen(s, c, o, now, r);
    var i :| 0 <= i < |s.reservations| && s.reservations[i].reservationId == id && r ==
        SeenAt(s.reservations[i], o, now);
    assert IsOwn(s.reservations[i], o, id);
  }

  lemma SettlementIsExact(s: Ledger, c: SoundLedger, who: Identity, request: Request, now: int, fails: bool,
                          r: Reservation)
    requires CaughtUp(c, who.organizationId, now)
    requires request.TransitionRequest? && (request.target == Committed || request.target == Released)
    requires request.organizationId == who.organizationId && IsOwn(r, who.organizationId, request.reservationId)
    requires request.target == Released ==> request.observed == Zero()
    requires IdempotencyKey(who.organizationId, request.target, request.key) !in c.idempotency
    requires FindReservation(c.reservations, request.reservationId) == Some(SeenAt(r, who.organizationId, now))
    ensures AnswersFor(r, request.key, request.target, request.observed, request.reason, now, fails,
                       TransitionFrom(s, c, who, request, now, fails).1)
  {
    hide Inv, Settle, FindReservation, SettleEffect, MaySettle;
    var seen := SeenAt(r, who.organizationId, now);
    if seen.state == Reserved && (request.target == Committed ==> Le(request.observed, seen.requested)) {
      MemberIsOk(c, seen);
      MayTransition(c, seen, request, now);
      var _ := SettleKeeps(c, seen, TransitionOf(request, now), Caller(who.subjectId));
    }
  }

  lemma TransitionIsExact(s: SoundLedger, who: Identity, id: Id, key: string, amounts: Dims, target: ReservationState,
                          reason: string, now: int, fails: bool)
    requires target == Committed || (target == Released && amounts == Zero())
    requires IdempotencyKey(who.organizationId, target, key) !in s.idempotency
    ensures AnswersTransition(s, who.organizationId, id, key, target, amounts, reason, now, fails,
                              TransitionStep(s, who, id, key, amounts, target, reason, now, fails).1)
  {
    hide Inv, Prepare, OnlyExpires, CaughtUp, TransitionFrom, FindReservation, AnswersFor;
    if GoesBack(s, who.organizationId, now) {
      Regression(s, who.organizationId, now);
    } else {
      var c := Candidate(s, who.organizationId, now);
      var request := TransitionRequest(who.organizationId, id, target, key, amounts, reason);
      forall r | r in s.reservations && IsOwn(r, who.organizationId, id)
        ensures AnswersFor(r, key, target, amounts, reason, now, fails,
                           TransitionFrom(s, c, who, request, now, fails).1)
      {
        OwnIsFound(s, c, who.organizationId, id, now, r);
        SettlementIsExact(s, c, who, request, now, fails, r);
      }
      if forall r | r in s.reservations :: !IsOwn(r, who.organizationId, id) {
        NotFoundIsExact(s, c, who, request, now, fails);
      }
    }
  }

  lemma NotFoundIsExact(s: Ledger, c: SoundLedger, who: Identity, request: Request, now: int, fails: bool)
    requires OnlyExpires(s, c, who.organizationId, now) && request.TransitionRequest?
    requires forall r | r in s.reservations :: !IsOwn(r, who.organizationId, request.reservationId)
    ensures TransitionFrom(s, c, who, request, now, fails).1 == Refused(ReservationNotFound)
  {
    hide Inv, OnlyExpires, FindReservation;
    var r := FindReservation(c.reservations, request.reservationId);
    if r.Some? && r.value.organizationId == who.organizationId {
      FoundIsOwn(s, c, who.organizationId, request.reservationId, now, r.value);
    }
  }

  lemma RepeatIsExact(s: SoundLedger, who: Identity, id: Id, key: string, amounts: Dims, target: ReservationState,
                      reason: string, now: int, fails: bool)
    requires target == Committed || target == Released
    requires IdempotencyKey(who.organizationId, target, key) in s.idempotency
    ensures var (s', answer) := TransitionStep(s, who, id, key, amounts, target, reason, now, fails);
            s' == s && RepeatsTransition(s, who.organizationId, id, key, target, amounts, reason, now, answer)
  {
    hide Inv, TransitionStep, FindTransition;
    BoundTransition(s, who, id, key, amounts, target, reason, now, fails);
  }

  /** For every run and every commit, the one answer it gives: a commit goes through exactly when the
      reservation is the tenant's own, still live, and at least as large as what is committed. */
  lemma CommitIsExact(es: seq<Event>, who: Identity, id: Id, key: string, observed: map<string, int>, now: int,
                      fails: bool)
    ensures var s := Run(EMPTY, es);
            var o := who.organizationId;
            var (s', answer) := Step(s, Event(Commit(who, id, key, observed, now), fails));
            if !Acceptable(observed, false) then answer == Refused(ObservedInvalid)
            else if IdempotencyKey(o, Committed, key) in s.idempotency
            then s' == s && RepeatsTransition(s, o, id, key, Committed, Asked(observed), "USAGE_COMMITTED", now, answer)
            else
              AnswersTransition(s, o, id, key, Committed, Asked(observed), "USAGE_COMMITTED", now, fails, answer)
  {
    hide Inv, Evolves, TransitionStep, Acceptable, Normalized, AnswersTransition, RepeatsTransition;
    var s := Reach(es);
    AcceptedIsAsked(observed, ObservedInvalid, false);
    if Acceptable(observed, false) {
      var amounts := Normalized(observed, ObservedInvalid, false).value;
      assert amounts == Asked(observed);
      if IdempotencyKey(who.organizationId, Committed, key) in s.idempotency {
        RepeatIsExact(s, who, id, key, amounts, Committed, "USAGE_COMMITTED", now, fails);
      } else {
        TransitionIsExact(s, who, id, key, amounts, Committed, "USAGE_COMMITTED", now, fails);
      }
    }
  }

  /** The same for releases, which observe nothing and keep the caller's reason. */
  lemma ReleaseIsExact(es: seq<Event>, who: Identity, id: Id, key: string, reason: string, now: int, fails: bool)
    ensures var s := Run(EMPTY, es);
            var o := who.organizationId;
            var (s', answer) := Step(s, Event(Release(who, id, key, reason, now), fails));
            if IdempotencyKey(o, Released, key) in s.idempotency
            then s' == s && RepeatsTransition(s, o, id, key, Released, NOTHING, reason, now, answer)
            else AnswersTransition(s, o, id, key, Released, NOTHING, reason, now, fails, answer)
  {
    hide Inv, Evolves, TransitionStep, AnswersTransition, RepeatsTransition;
    var s := Reach(es);
    assert Zero() == NOTHING;
    if IdempotencyKey(who.organizationId, Released, key) in s.idempotency {
      RepeatIsExact(s, who, id, key, Zero(), Released, reason, now, fails);
    } else {
      TransitionIsExact(s, who, id, key, Zero(), Released, reason, now, fails);
    }
  }

  /* ---------- Evaluate ---------- */

  /** The clock of the tenant stands at `now` and none of its live reservations is overdue. */
  ghost predicate IsUpToDate(s: Ledger, o: string, now: int) {
    && o in s.lastClock
    && s.lastClock[o] == now
    && forall r | r in s.reservations && r.organizationId == o && r.state == Reserved :: now < r.expiresAt
  }

  /** The evaluation of a request when the window holds `held` without it and `total` with it. */
  ghost predicate IsEvaluation(v: Evaluation, b: Budget, held: seq<int>, total: seq<int>, now: int)
    requires |held| == |total| == COUNT && b.windowEpoch <= now
  {
    && v == Evaluation(b.budgetId, b.budgetDigest, b.scopeType, b.scopeId, v.state, b.enforcement, v.allowed,
                       v.exceeded, v.projected, WindowOf(b, now))
    && IsState(b, held, v.state)
    && v.projected == total
    && (v.allowed <==> b.enabled && (b.enforcement == Advisory || !SomeOver(total, b.limits)))
    && NamesThoseOver(v.exceeded, total, b.limits)
  }

  /** The answer of an evaluation that has found its budget. */
  ghost predicate AnswersEvaluation(s: Ledger, b: Budget, requested: map<string, int>, now: int, fails: bool,
                                    answer: Response)
  {
    if now < b.windowEpoch then answer == Refused(WindowNotStarted)
    else
      var total := Demand(s, KeyAt(b, now), requested, now);
      if Overflows(total) then answer == Refused(DimensionOverflow)
      else if fails && !IsUpToDate(s, b.organizationId, now) then answer == Refused(StoreCommitFailed)
      else
        answer.EvaluationShown? && IsEvaluation(answer.evaluation, b, Held(s, KeyAt(b, now), now), total, now)
  }

  /** The answer of an evaluation. */
  ghost predicate AnswersEvaluate(s: Ledger, o: string, budgetId: string, budgetDigest: string, scopeType: string,
                                  scopeId: string, requested: map<string, int>, now: int, fails: bool,
                                  answer: Response)
  {
    if !Acceptable(requested, true) then answer == Refused(RequestedInvalid)
    else if GoesBack(s, o, now) then answer == Refused(ClockRegression)
    else if BudgetKey(o, budgetId) !in s.budgets then answer == Refused(BudgetNotFound)
    else
      var b := s.budgets[BudgetKey(o, budgetId)];
      if b.budgetDigest != budgetDigest then answer == Refused(BudgetDigestMismatch)
      else if b.scopeType != scopeType || b.scopeId != scopeId then answer == Refused(BudgetScopeMismatch)
      else AnswersEvaluation(s, b, requested, now, fails, answer)
  }

  lemma EvaluationIsExact(s: Ledger, c: SoundLedger, b: Budget, requested: map<string, int>, amounts: Dims, now: int)
    requires OnlyExpires(s, c, b.organizationId, now) && b.windowEpoch <= now && IsAsked(amounts, requested)
    ensures var total := Demand(s, KeyAt(b, now), requested, now);
            var v := EvaluationOf(c, b, WindowOf(b, now), amounts, now);
            if Overflows(total) then v == Err(DimensionOverflow)
            else v.Ok? && IsEvaluation(v.value, b, Held(s, KeyAt(b, now), now), total, now)
  {
    hide Inv, OnlyExpires, Projected, ExceededDimensions, BudgetState, HeldAt, IsState, NamesThoseOver;
    var k := KeyAt(b, now);
    ProjectionIsExact(s, c, b, now, requested, amounts);
    CandidateHolds(s, c, k, now);
    StateIsExact(c, b, k.windowIndex, Held(s, k, now));
    var total := Demand(s, k, requested, now);
    if !Overflows(total) {
      ExceededNamesThoseOver(total, b.limits);
    }
  }

  lemma UnchangedExactly(s: SoundLedger, c: Ledger, o: string, now: int)
    requires Prepare(s, o, now) == Ok(c) && OnlyExpires(s, c, o, now)
    ensures c == s <==> IsUpToDate(s, o, now)
  {
    hide Inv, Prepare;
    if IsUpToDate(s, o, now) {
      PrepareIsIdle(s, o, now);
    } else if r :| r in s.reservations && r.organizationId == o && r.state == Reserved && r.expiresAt <= now {
      OverdueChanges(s, c, o, now, r);
    }
  }

  lemma OverdueChanges(s: Ledger, c: Ledger, o: string, now: int, r: Reservation)
    requires OnlyExpires(s, c, o, now)
    requires r in s.reservations && r.organizationId == o && r.state == Reserved && r.expiresAt <= now
    ensures c != s
  {
    var i :| 0 <= i < |s.reservations| && s.reservations[i] == r;
    assert c.reservations[i].state != s.reservations[i].state;
  }

  lemma EvaluateFromIsExact(s: SoundLedger, c: SoundLedger, b: Budget, requested: map<string, int>, amounts: Dims,
                            now: int, fails: bool)
    requires Prepare(s, b.organizationId, now) == Ok(c) && OnlyExpires(s, c, b.organizationId, now)
    requires IsAsked(amounts, requested)
    ensures var (s', answer) := EvaluateFrom(s, c, b, amounts, now, fails);
            && AnswersEvaluation(s, b, requested, now, fails, answer)
            && (answer.EvaluationShown? ==> MovesOn(s, s', b.organizationId, b, now))
  {
    hide Inv, Prepare, MovesOn, OnlyExpires, IsUpToDate, EvaluationOf, WindowAt, MarkReconciled, Demand, Held,
        IsEvaluation,
        Advances;
    WindowIsExact(b, now);
    if b.windowEpoch <= now {
      EvaluationIsExact(s, c, b, requested, amounts, now);
      UnchangedExactly(s, c, b.organizationId, now);
      var next := MarkAdvances(c, b, KeyAt(b, now).windowIndex);
      MarkedMovesOn(s, c, next, b.organizationId, b, now);
    }
  }

  /** The ledger has moved on to `now`: a ledger that is up to date is left as it is; any other expires
      what is overdue and nothing else, and marks the current window of `b` besides. */
  ghost predicate MovesOn(s: Ledger, s': Ledger, o: string, b: Budget, now: int) {
    && b.windowEpoch <= now
    && OnlyExpires(s, s', o, now)
    && if IsUpToDate(s, o, now) then s' == s
       else Touches(s, s', OverdueWindows(s.reservations, o, now),
                    OverdueWindows(s.reservations, o, now) + {KeyAt(b, now)}, now)
  }

  lemma MarkedMovesOn(s: SoundLedger, c: Ledger, next: Ledger, o: string, b: Budget, now: int)
    requires Prepare(s, o, now) == Ok(c) && OnlyExpires(s, c, o, now) && b.windowEpoch <= now
    requires next == c.(reconciled := c.reconciled[KeyAt(b, now) := Match])
    ensures MovesOn(s, if c == s then c else next, o, b, now)
  {
    hide Inv, Prepare, OnlyExpires, IsUpToDate, TouchesOverdue, Touches, KeyAt;
    UnchangedExactly(s, c, o, now);
    PreparationTouches(s, o, now);
    MarkedToo(s, c, next, o, now, KeyAt(b, now));
    MarkedOnlyExpires(s, c, next, o, now);
  }

  lemma MarkedOnlyExpires(s: Ledger, c: Ledger, next: Ledger, o: string, now: int)
    requires OnlyExpires(s, c, o, now) && next == c.(reconciled := next.reconciled)
    ensures OnlyExpires(s, next, o, now)
  {
  }

  /** For every run and every evaluation, the one answer it gives: the totals the window would hold,
      whether they fit, and the state of the budget as it is. When it answers, the ledger has moved on
      to the time of the call and expired what was overdue; its window, if anything changed, is marked
      as matching, and nothing else has changed. */
  lemma EvaluateIsExact(es: seq<Event>, who: Identity, budgetId: string, budgetDigest: string, scopeType: string,
                        scopeId: string, requested: map<string, int>, now: int, fails: bool)
    ensures var s := Run(EMPTY, es);
            var (s', answer) :=
              Step(s, Event(Evaluate(who, budgetId, budgetDigest, scopeType, scopeId, requested, now), fails));
            && AnswersEvaluate(s, who.organizationId, budgetId, budgetDigest, scopeType, scopeId, requested, now, fails,
                               answer)
            && (answer.EvaluationShown? ==>
                  && BudgetKey(who.organizationId, budgetId) in s.budgets
                  && MovesOn(s, s', who.organizationId, s.budgets[BudgetKey(who.organizationId, budgetId)], now))
  {
    hide Inv, Evolves, Prepare, Normalized, EvaluateFrom, OnlyExpires, CaughtUp, AnswersEvaluation, Acceptable, MovesOn;
    var s := Reach(es);
    AcceptedIsAsked(requested, RequestedInvalid, true);
    if GoesBack(s, who.organizationId, now) {
      Regression(s, who.organizationId, now);
    } else {
      var c := Candidate(s, who.organizationId, now);
      var b := FindBudget(c, who.organizationId, budgetId, budgetDigest, scopeType, scopeId);
      if Acceptable(requested, true) && b.Ok? {
        FoundBudget(c, who.organizationId, budgetId);
        EvaluateFromIsExact(s, c, b.value, requested, Normalized(requested, RequestedInvalid, true).value, now, fails);
      }
    }
  }

  /* ---------- Reconcile ---------- */

  /** The digest of what the window `k` holds at `now`. */
  ghost predicate IsDigest(g: AggregateDigest, s: Ledger, k: AggregateKey, now: int) {
    && g.organizationId == k.organizationId && g.budgetId == k.budgetId && g.windowIndex == k.windowIndex
    && forall d | 0 <= d < COUNT ::
         g.committed[d] == UsedIn(s.usageEntries, k, d) && g.reserved[d] == LiveIn(s.reservations, k, d, now)
  }

  /** The finding of a reconciliation of budget `b` at `now`: its current window, found to match. */
  ghost predicate IsFinding(f: ReconciliationFinding, s: Ledger, b: Budget, now: int)
    requires b.windowEpoch <= now
  {
    var k := KeyAt(b, now);
    && f == ReconciliationFinding(b.organizationId, b.budgetId, k.windowIndex, f.expected, f.observed, Match, now)
    && IsDigest(f.expected, s, k, now)
    && IsDigest(f.observed, s, k, now)
  }

  ghost predicate AnswersReconcile(s: Ledger, o: string, budgetId: string, now: int, fails: bool, s': Ledger,
                                   answer: Response)
  {
    if GoesBack(s, o, now) then answer == Refused(ClockRegression)
    else if BudgetKey(o, budgetId) !in s.budgets then answer == Refused(BudgetNotFound)
    else
      var b := s.budgets[BudgetKey(o, budgetId)];
      if now < b.windowEpoch then answer == Refused(WindowNotStarted)
      else if fails then answer == Refused(StoreCommitFailed)
      else
        && answer.ReconciliationShown?
        && IsFinding(answer.reconciliation, s, b, now)
        && s'.reconciliations == s.reconciliations + [answer.reconciliation]
        && OnlyExpires(s, s'.(reconciliations := s.reconciliations), o, now)
        && Touches(s, s', OverdueWindows(s.reservations, o, now),
                   OverdueWindows(s.reservations, o, now) + {KeyAt(b, now)}, now)
  }

  lemma RecomputedIsExact(s: Ledger, c: SoundLedger, b: Budget, now: int)
    requires OnlyExpires(s, c, b.organizationId, now) && b.windowEpoch <= now
    ensures var recomputed := Recomputed(c, b, KeyAt(b, now).windowIndex, now);
            var stored := AggregateAt(c, b, KeyAt(b, now).windowIndex, now);
            && recomputed.Ok? && StatusOf(recomputed.value, stored) == Match
            && IsDigest(DigestOf(recomputed.value), s, KeyAt(b, now), now)
            && IsDigest(DigestOf(stored), s, KeyAt(b, now), now)
  {
    hide Inv, OnlyExpires, Recomputed, CommittedAt, ReservedAt;
    var k := KeyAt(b, now);
    RecomputationIsSound(c, b, k.windowIndex, now);
    StoredDigest(c, b, k.windowIndex, now);
    forall d | 0 <= d < COUNT
      ensures CommittedAt(c, k)[d] == UsedIn(s.usageEntries, k, d)
      ensures ReservedAt(c, k)[d] == LiveIn(s.reservations, k, d, now)
    {
      PreparedTotals(s, c, k, d, now);
    }
  }

  lemma StoredDigest(c: SoundLedger, b: Budget, index: nat, now: int)
    ensures DigestOf(AggregateAt(c, b, index, now)) ==
            AggregateDigest(b.organizationId, b.budgetId, index, CommittedAt(c, KeyOf(b, index)),
                            ReservedAt(c, KeyOf(b, index)))
  {
    hide RecordsOk, KeysOk, LogsOk, CapsOk, MarksOk;
    assert BooksOk(c);
  }

  lemma SameFindings(s: Ledger, c: Ledger, o: string, now: int)
    requires OnlyExpires(s, c, o, now)
    ensures c.reconciliations == s.reconciliations
  {
  }

  lemma ReconcileFromIsExact(s: Ledger, c: SoundLedger, b: Budget, who: Identity, now: int, fails: bool)
    requires OnlyExpires(s, c, b.organizationId, now) && b.organizationId == who.organizationId
    requires TouchesOverdue(s, c, s.reservations, b.organizationId, now)
    ensures var (s', answer) := ReconcileFrom(s, c, b, who, b.budgetId, now, fails);
            if now < b.windowEpoch then answer == Refused(WindowNotStarted)
            else if fails then answer == Refused(StoreCommitFailed)
            else
              && answer.ReconciliationShown?
              && IsFinding(answer.reconciliation, s, b, now)
              && s'.reconciliations == s.reconciliations + [answer.reconciliation]
              && OnlyExpires(s, s'.(reconciliations := s.reconciliations), b.organizationId, now)
              && Touches(s, s', OverdueWindows(s.reservations, b.organizationId, now),
                         OverdueWindows(s.reservations, b.organizationId, now) + {KeyAt(b, now)}, now)
  {
    hide Inv, Recomputed, AggregateAt, WindowAt, IsDigest, StatusOf, DigestOf, OnlyExpires, TouchesOverdue, Touches,
        OverdueWindows;
    WindowIsExact(b, now);
    if b.windowEpoch <= now {
      RecomputedIsExact(s, c, b, now);
      SameFindings(s, c, b.organizationId, now);
      var s' := ReconcileFrom(s, c, b, who, b.budgetId, now, false).0;
      MarkedOnlyExpires(s, c, s'.(reconciliations := s.reconciliations), b.organizationId, now);
      MarkedToo(s, c, s', b.organizationId, now, KeyAt(b, now));
    }
  }

  /** For every run and every reconciliation, the one answer it gives: the recomputed and the stored
      totals of the window that contains the time of the call, which agree. */
  lemma ReconcileIsExact(es: seq<Event>, who: Identity, budgetId: string, now: int, fails: bool)
    ensures var s := Run(EMPTY, es);
            var (s', answer) := Step(s, Event(Reconcile(who, budgetId, now), fails));
            AnswersReconcile(s, who.organizationId, budgetId, now, fails, s', answer)
  {
    hide Inv, Evolves, Prepare, OnlyExpires, CaughtUp, ReconcileFrom, IsFinding, TouchesOverdue, Touches,
        OverdueWindows;
    var s := Reach(es);
    if GoesBack(s, who.organizationId, now) {
      Regression(s, who.organizationId, now);
    } else {
      var c := Candidate(s, who.organizationId, now);
      if BudgetKey(who.organizationId, budgetId) in s.budgets {
        FoundBudget(c, who.organizationId, budgetId);
        PreparationTouches(s, who.organizationId, now);
        ReconcileFromIsExact(s, c, s.budgets[BudgetKey(who.organizationId, budgetId)], who, now, fails);
      }
    }
  }

  /* ---------- Retention ---------- */

  predicate IsOld(e: UsageEntry, o: string, budgetId: string, cutoff: int) {
    e.organizationId == o && e.budgetId == budgetId && e.windowIndex <= cutoff
  }

  predicate IsListed(i: int, ns: seq<nat>) {
    i in ns
  }

  /** `ns` are the places, in order, of exactly the old entries, and `history` is what stands there. */
  ghost predicate PicksOld(ns: seq<nat>, history: seq<UsageEntry>, es: seq<UsageEntry>, o: string, budgetId: string,
                           cutoff: int)
  {
    && |ns| == |history|
    && (forall j | 0 <= j < |ns| ::
          ns[j] < |es| && history[j] == es[ns[j]] && IsOld(history[j], o, budgetId, cutoff))
    && (forall j, l | 0 <= j < l < |ns| :: ns[j] < ns[l])
    && (forall i | 0 <= i < |es| && IsOld(es[i], o, budgetId, cutoff) :: IsListed(i, ns))
  }

  lemma {:induction false} HistoryPicksOld(es: seq<UsageEntry>, o: string, budgetId: string, cutoff: int)
    returns (ns: seq<nat>)
    ensures PicksOld(ns, History(es, o, budgetId, cutoff), es, o, budgetId, cutoff)
  {
    hide PicksOld;
    if es == [] {
      ns := [];
      NoneIsOld(o, budgetId, cutoff);
    } else {
      var init, last := es[..|es| - 1], es[|es| - 1];
      var earlier := HistoryPicksOld(init, o, budgetId, cutoff);
      assert es == init + [last];
      ns := PicksOldOn(earlier, History(init, o, budgetId, cutoff), init, last, o, budgetId, cutoff);
    }
  }

  lemma NoneIsOld(o: string, budgetId: string, cutoff: int)
    ensures PicksOld([], [], [], o, budgetId, cutoff)
  {
  }

  lemma PicksOldOn(earlier: seq<nat>, history: seq<UsageEntry>, init: seq<UsageEntry>, last: UsageEntry, o: string,
                   budgetId: string, cutoff: int)
    returns (ns: seq<nat>)
    requires PicksOld(earlier, history, init, o, budgetId, cutoff)
    ensures PicksOld(ns, if IsOld(last, o, budgetId, cutoff) then history + [last] else history, init + [last], o,
                     budgetId, cutoff)
  {
    hide PicksOld, IsOld;
    if IsOld(last, o, budgetId, cutoff) {
      ns := earlier + [|init|];
      OldIsPicked(earlier, history, init, last, o, budgetId, cutoff);
    } else {
      ns := earlier;
      YoungIsPassed(earlier, history, init, last, o, budgetId, cutoff);
    }
  }

  lemma OldIsPicked(ns: seq<nat>, history: seq<UsageEntry>, init: seq<UsageEntry>, last: UsageEntry, o: string,
                    budgetId: string, cutoff: int)
    requires PicksOld(ns, history, init, o, budgetId, cutoff) && IsOld(last, o, budgetId, cutoff)
    ensures PicksOld(ns + [|init|], history + [last], init + [last], o, budgetId, cutoff)
  {
    hide IsOld, IsListed;
    ListedOn(ns, |init|);
  }

  lemma YoungIsPassed(ns: seq<nat>, history: seq<UsageEntry>, init: seq<UsageEntry>, last: UsageEntry, o: string,
                      budgetId: string, cutoff: int)
    requires PicksOld(ns, history, init, o, budgetId, cutoff) && !IsOld(last, o, budgetId, cutoff)
    ensures PicksOld(ns, history, init + [last], o, budgetId, cutoff)
  {
    hide IsOld, IsListed;
  }

  lemma ListedOn(ns: seq<nat>, n: nat)
    ensures IsListed(n, ns + [n])
    ensures forall i | IsListed(i, ns) :: IsListed(i, ns + [n])
  {
  }

  ghost predicate IsRetention(f: RetentionFinding, s: Ledger, o: string, b: Budget, now: int)
    requires b.windowEpoch <= now
  {
    && f == RetentionFinding(o, b.budgetId, WindowOf(b, now).index - b.retentionWindows, f.history, f.due, now)
    && (f.due <==> exists e | e in s.usageEntries :: IsOld(e, o, b.budgetId, f.cutoff))
    && exists ns: seq<nat> :: PicksOld(ns, f.history, s.usageEntries, o, b.budgetId, f.cutoff)
  }

  ghost predicate AnswersRetention(s: Ledger, o: string, budgetId: string, now: int, fails: bool, s': Ledger,
                                   answer: Response)
  {
    if GoesBack(s, o, now) then answer == Refused(ClockRegression)
    else if BudgetKey(o, budgetId) !in s.budgets then answer == Refused(BudgetNotFound)
    else
      var b := s.budgets[BudgetKey(o, budgetId)];
      if now < b.windowEpoch then answer == Refused(WindowNotStarted)
      else if fails then answer == Refused(StoreCommitFailed)
      else
        && answer.RetentionShown?
        && IsRetention(answer.retention, s, o, b, now)
        && s' == s.(lastClock := s.lastClock[o := now], retentions := s.retentions + [answer.retention])
  }

  lemma FindingIsExact(s: Ledger, o: string, b: Budget, now: int)
    requires b.windowEpoch <= now
    ensures var cutoff := WindowOf(b, now).index - b.retentionWindows;
            var history := History(s.usageEntries, o, b.budgetId, cutoff);
            IsRetention(RetentionFinding(o, b.budgetId, cutoff, history, history != [], now), s, o, b, now)
  {
    hide History, IsOld, PicksOld;
    var cutoff := WindowOf(b, now).index - b.retentionWindows;
    var history := History(s.usageEntries, o, b.budgetId, cutoff);
    var ns := HistoryPicksOld(s.usageEntries, o, b.budgetId, cutoff);
    OldExactly(ns, history, s.usageEntries, o, b.budgetId, cutoff);
  }

  lemma RetentionStepIsExact(s: SoundLedger, who: Identity, budgetId: string, now: int, fails: bool)
    ensures var (s', answer) := RetentionStep(s, who, budgetId, now, fails);
            AnswersRetention(s, who.organizationId, budgetId, now, fails, s', answer)
  {
    hide Inv, History, WindowAt, IsRetention, WindowOf;
    if BudgetKey(who.organizationId, budgetId) in s.budgets {
      FoundBudget(s, who.organizationId, budgetId);
      var b := s.budgets[BudgetKey(who.organizationId, budgetId)];
      WindowIsExact(b, now);
      if b.windowEpoch <= now {
        FindingIsExact(s, who.organizationId, b, now);
      }
    }
  }

  /** For every run and every retention call, the one answer it gives: the cutoff lies as many windows
      back as the budget retains, and the history shown is every usage entry of the budget up to it,
      in order. It moves the clock and expires nothing. */
  lemma RetentionIsExact(es: seq<Event>, who: Identity, budgetId: string, now: int, fails: bool)
    ensures var s := Run(EMPTY, es);
            var (s', answer) := Step(s, Event(RetentionDue(who, budgetId, now), fails));
            AnswersRetention(s, who.organizationId, budgetId, now, fails, s', answer)
  {
    hide Inv, Evolves, RetentionStep, AnswersRetention;
    var s := Reach(es);
    RetentionStepIsExact(s, who, budgetId, now, fails);
  }

  lemma OldExactly(ns: seq<nat>, history: seq<UsageEntry>, es: seq<UsageEntry>, o: string, budgetId: string,
                   cutoff: int)
    requires PicksOld(ns, history, es, o, budgetId, cutoff)
    ensures history != [] <==> exists e | e in es :: IsOld(e, o, budgetId, cutoff)
  {
    hide IsOld;
    if e :| e in es && IsOld(e, o, budgetId, cutoff) {
      var i :| 0 <= i < |es| && es[i] == e;
      assert i in ns;
    } else if history != [] {
      assert ns[0] in ns;
    }
  }

  /* ---------- Budgets ---------- */

  /** A budget is added once: the same definition again is accepted and changes nothing, another
      definition under its name is refused. */
  lemma AddBudgetIsExact(es: seq<Event>, b: Budget, fails: bool)
    ensures var s := Run(EMPTY, es);
            var key := BudgetKey(b.organizationId, b.budgetId);
            var (s', answer) := Step(s, Event(AddBudget(b), fails));
            if key in s.budgets
            then s' == s && answer == if s.budgets[key] == b then BudgetAdded else Refused(BudgetConflict)
            else if fails then s' == s && answer == Refused(StoreCommitFailed)
            else s' == s.(budgets := s.budgets[key := b]) && answer == BudgetAdded
  {
  }

  /* ---------- What a reconciliation would find in any ledger ---------- */

  /** What is stored for the window `k`, if anything, is stored under its own name and is what the usage
      entries and the reserved reservations add up to; where nothing is stored they add up to zero. */
  ghost predicate StoresExactly(s: Ledger, k: AggregateKey) {
    && (k in s.aggregates ==>
          var a := s.aggregates[k];
          a.organizationId == k.organizationId && a.budgetId == k.budgetId && a.windowIndex == k.windowIndex)
    && forall d | 0 <= d < COUNT ::
         && (if k in s.aggregates then s.aggregates[k].committed[d] else 0) == UsedIn(s.usageEntries, k, d)
         && (if k in s.aggregates then s.aggregates[k].reserved[d] else 0) == ReservedIn(s.reservations, k, d)
  }

  lemma StatusIsHonest(s: Ledger, b: Budget, index: nat, now: int)
    requires Recomputed(s, b, index, now).Ok?
    ensures StatusOf(Recomputed(s, b, index, now).value, AggregateAt(s, b, index, now)) == Match <==>
            StoresExactly(s, KeyOf(b, index))
  {
    var k := KeyOf(b, index);
    forall d | 0 <= d < COUNT ensures CommittedTotals(s.usageEntries, k)[d] == UsedIn(s.usageEntries, k, d) {
      UsedIsCommitted(s.usageEntries, k, d);
    }
    if StoresExactly(s, k) {
      var a := AggregateAt(s, b, index, now);
      assert a.committed == CommittedTotals(s.usageEntries, k) && a.reserved == ReservedTotals(s.reservations, k);
    }
  }

  /** Sound or not, a ledger is marked as matching exactly when what it stores is right. */
  lemma MarksAreHonest(s: Ledger, b: Budget, index: nat)
    requires MarkReconciled(s, b, index).Ok?
    ensures var k := AggregateKey(b.organizationId, b.budgetId, index);
            MarkReconciled(s, b, index).value ==
            s.(reconciled := s.reconciled[k := if StoresExactly(s, k) then Match else Mismatch])
  {
    hide Recomputed, StatusOf, AggregateAt, StoresExactly;
    StatusIsHonest(s, b, index, WindowStart(b, index));
  }

  /** And a reconciliation of any candidate reports a match exactly then. */
  lemma FindingsAreHonest(s: Ledger, c: Ledger, b: Budget, who: Identity, budgetId: string, now: int)
    requires ReconcileFrom(s, c, b, who, budgetId, now, false).1.ReconciliationShown?
    ensures b.windowEpoch <= now
    ensures var finding := ReconcileFrom(s, c, b, who, budgetId, now, false).1.reconciliation;
            finding.status == if StoresExactly(c, KeyAt(b, now)) then Match else Mismatch
  {
    hide Recomputed, StatusOf, AggregateAt, StoresExactly, DigestOf;
    WindowIsExact(b, now);
    StatusIsHonest(c, b, KeyAt(b, now).windowIndex, now);
  }

  /** In any ledger an enabled budget waits for a reset exactly while an earlier window of it is marked
      as mismatching. */
  lemma ResetPendingExactly(s: Ledger, b: Budget, index: nat)
    ensures BudgetState(s, b, index) == Ok(ResetPending) <==>
              && b.enabled
              && (forall d | 0 <= d < COUNT ::
                    CommittedAt(s, KeyOf(b, index))[d] + ReservedAt(s, KeyOf(b, index))[d] <= 9_000_000_000_000_000)
              && (exists i | 0 <= i < index ::
                    var k := AggregateKey(b.organizationId, b.budgetId, i);
                    k in s.reconciled && s.reconciled[k] == Mismatch)
  {
    var aggregate := AggregateAt(s, b, index, WindowStart(b, index));
    var total := Plus(aggregate.committed, aggregate.reserved);
    assert forall d | 0 <= d < COUNT ::
        total[d] == CommittedAt(s, KeyOf(b, index))[d] + ReservedAt(s, KeyOf(b, index))[d];
    if EarlierMismatch(s, b, index) {
      var k :| k in s.reconciled && k.organizationId == b.organizationId && k.budgetId == b.budgetId &&
               k.windowIndex < index && s.reconciled[k] != Match;
      assert k == AggregateKey(b.organizationId, b.budgetId, k.windowIndex);
    }
  }
}
