/** What each ledger operation computes, as functions on ledger values.

    Every operation works on a candidate that starts as the published ledger, and either
    publishes the candidate or leaves the published ledger as it was. Internal failures are
    ordinary refusals here (`KeyMissing`, `CounterUnderflow`, `DimensionOverflow`), so that
    nothing is assumed about the ledger an operation starts from. */
module LedgerSpec {
  import opened Results
  import opened Dimensions
  import opened UsageModels

  datatype Ledger = Ledger(
    budgets: map<BudgetKey, Budget>,
    /** A dictionary in insertion order: every reservation is stored under its own id. */
    reservations: seq<Reservation>,
    transitions: seq<Transition>,
    usageEntries: seq<UsageEntry>,
    aggregates: map<AggregateKey, Aggregate>,
    idempotency: map<IdempotencyKey, Binding>,
    audit: seq<AuditRecord>,
    outbox: seq<OutboxEvent>,
    reconciliations: seq<ReconciliationFinding>,
    retentions: seq<RetentionFinding>,
    lastClock: map<string, int>,
    reconciled: map<AggregateKey, Status>)

  const EMPTY: Ledger := Ledger(map[], [], [], [], map[], map[], [], [], [], [], map[], map[])

  datatype Identity = Identity(organizationId: string, subjectId: string, tokenDigest: string)

  datatype Op =
    | AddBudget(budget: Budget)
    | Reserve(who: Identity, terms: ReserveTerms, now: int)
    | Commit(who: Identity, reservationId: Id, key: string, observed: map<string, int>, now: int)
    | Release(who: Identity, reservationId: Id, key: string, reason: string, now: int)
    | Evaluate(who: Identity, budgetId: string, budgetDigest: string, scopeType: string, scopeId: string,
               requested: map<string, int>, now: int)
    | Reconcile(who: Identity, budgetId: string, now: int)
    | RetentionDue(who: Identity, budgetId: string, now: int)

  datatype ReserveTerms = ReserveTerms(
    budgetId: string, budgetDigest: string, scopeType: string, scopeId: string, operationId: string,
    key: string, requested: map<string, int>, ttlSeconds: int)

  datatype Response =
    | Refused(code: Denial)
    | BudgetAdded
    | ReservationShown(reservation: Reservation, budgetState: BudgetStateCode)
    | TransitionShown(transition: Transition)
    | EvaluationShown(evaluation: Evaluation)
    | ReconciliationShown(reconciliation: ReconciliationFinding)
    | RetentionShown(retention: RetentionFinding)

  datatype Evaluation = Evaluation(
    budgetId: string, budgetDigest: string, scopeType: string, scopeId: string, state: BudgetStateCode,
    enforcement: Enforcement, allowed: bool, exceeded: seq<string>, projected: Dims, window: Window)

  /* ---------- Dictionary and list look-ups ---------- */

  function FindReservation(rs: seq<Reservation>, id: Id): (r: Option<Reservation>)
    ensures r.Some? ==> r.value in rs && r.value.reservationId == id
    ensures r.None? ==> forall x | x in rs :: x.reservationId != id
  {
    if rs == [] then None
    else
      var earlier := FindReservation(rs[..|rs| - 1], id);
      assert rs == rs[..|rs| - 1] + [rs[|rs| - 1]];
      if earlier.Some? then earlier
      else if rs[|rs| - 1].reservationId == id then Some(rs[|rs| - 1])
      else None
  }

  function FindTransition(ts: seq<Transition>, id: Id): (r: Option<Transition>)
    ensures r.Some? ==> r.value in ts && r.value.transitionId == id
    ensures r.None? ==> forall x | x in ts :: x.transitionId != id
  {
    if ts == [] then None
    else
      var earlier := FindTransition(ts[..|ts| - 1], id);
      assert ts == ts[..|ts| - 1] + [ts[|ts| - 1]];
      if earlier.Some? then earlier
      else if ts[|ts| - 1].transitionId == id then Some(ts[|ts| - 1])
      else None
  }

  /** `reservations[id] = replace(reservations[id], state=state)` */
  function WithState(rs: seq<Reservation>, id: Id, state: ReservationState): (r: seq<Reservation>)
    ensures |r| == |rs|
    ensures forall i | 0 <= i < |rs| :: r[i] == if rs[i].reservationId == id then rs[i].(state := state) else rs[i]
  {
    seq(|rs|, i requires 0 <= i < |rs| => if rs[i].reservationId == id then rs[i].(state := state) else rs[i])
  }

  /** `reservations[x.reservationId] = x`: replaces an entry with that id, or appends. */
  function PutReservation(rs: seq<Reservation>, x: Reservation): (r: seq<Reservation>)
    ensures FindReservation(rs, x.reservationId).None? ==> r == rs + [x]
  {
    if FindReservation(rs, x.reservationId).None? then rs + [x]
    else seq(|rs|, i requires 0 <= i < |rs| => if rs[i].reservationId == x.reservationId then x else rs[i])
  }

  predicate IsDue(r: Reservation, organizationId: string, now: int) {
    r.organizationId == organizationId && r.state == Reserved && r.expiresAt <= now
  }

  function Due(rs: seq<Reservation>, organizationId: string, now: int): (r: seq<Reservation>)
    ensures forall x :: x in r <==> x in rs && IsDue(x, organizationId, now)
  {
    if rs == [] then []
    else
      var last := rs[|rs| - 1];
      assert rs == rs[..|rs| - 1] + [last];
      var earlier := Due(rs[..|rs| - 1], organizationId, now);
      if IsDue(last, organizationId, now) then earlier + [last] else earlier
  }

  /* ---------- Aggregates and their recomputation ---------- */

  function EntryKey(e: UsageEntry): AggregateKey {
    AggregateKey(e.organizationId, e.budgetId, e.windowIndex)
  }

  function ReservationKey(r: Reservation): AggregateKey {
    AggregateKey(r.organizationId, r.budgetId, r.window.index)
  }

  function KeyOf(b: Budget, index: nat): AggregateKey {
    AggregateKey(b.organizationId, b.budgetId, index)
  }

  /** How much of dimension `d` the entries booked under `k` have committed. */
  function CommittedIn(es: seq<UsageEntry>, k: AggregateKey, d: nat): nat
    requires d < COUNT
  {
    if es == [] then 0
    else
      var last := es[|es| - 1];
      CommittedIn(es[..|es| - 1], k, d) + if EntryKey(last) == k then last.dimensions[d] else 0
  }

  /** How much of dimension `d` is held by live reservations under `k`. */
  function ReservedIn(rs: seq<Reservation>, k: AggregateKey, d: nat): nat
    requires d < COUNT
  {
    if rs == [] then 0
    else
      var last := rs[|rs| - 1];
      ReservedIn(rs[..|rs| - 1], k, d) +
      if ReservationKey(last) == k && last.state == Reserved then last.requested[d] else 0
  }

  function CommittedTotals(es: seq<UsageEntry>, k: AggregateKey): (r: Dims)
    ensures forall d | 0 <= d < COUNT :: r[d] == CommittedIn(es, k, d)
  {
    seq(COUNT, d requires 0 <= d < COUNT => CommittedIn(es, k, d))
  }

  function ReservedTotals(rs: seq<Reservation>, k: AggregateKey): (r: Dims)
    ensures forall d | 0 <= d < COUNT :: r[d] == ReservedIn(rs, k, d)
  {
    seq(COUNT, d requires 0 <= d < COUNT => ReservedIn(rs, k, d))
  }

  function AggregateAt(s: Ledger, b: Budget, index: nat, now: int): Aggregate {
    if KeyOf(b, index) in s.aggregates then s.aggregates[KeyOf(b, index)]
    else Aggregate(b.organizationId, b.budgetId, index, Zero(), Zero(), now)
  }

  function Recomputed(s: Ledger, b: Budget, index: nat, now: int): Result<Aggregate, Denial> {
    var committed :- Checked(CommittedTotals(s.usageEntries, KeyOf(b, index)));
    var reserved :- Checked(ReservedTotals(s.reservations, KeyOf(b, index)));
    Ok(Aggregate(b.organizationId, b.budgetId, index, committed, reserved, now))
  }

  function StatusOf(expected: Aggregate, observed: Aggregate): Status {
    if DigestOf(expected) == DigestOf(observed) then Match else Mismatch
  }

  function MarkReconciled(s: Ledger, b: Budget, index: nat): Result<Ledger, Denial> {
    var start := WindowStart(b, index);
    var expected :- Recomputed(s, b, index, start);
    Ok(s.(reconciled := s.reconciled[KeyOf(b, index) := StatusOf(expected, AggregateAt(s, b, index, start))]))
  }

  predicate EarlierMismatch(s: Ledger, b: Budget, index: nat) {
    exists k | k in s.reconciled ::
      && k.organizationId == b.organizationId && k.budgetId == b.budgetId
      && k.windowIndex < index && s.reconciled[k] != Match
  }

  predicate WarningReached(total: Dims, b: Budget) {
    exists i | 0 <= i < COUNT :: b.limits[i] > 0 && total[i] * 10_000 >= b.limits[i] * b.warningBasisPoints
  }

  function BudgetState(s: Ledger, b: Budget, index: nat): (r: Result<BudgetStateCode, Denial>)
    ensures r.Err? ==> r.code == DimensionOverflow
  {
    if !b.enabled then Ok(Suspended)
    else
      var aggregate := AggregateAt(s, b, index, WindowStart(b, index));
      var total :- Checked(Plus(aggregate.committed, aggregate.reserved));
      Ok(if EarlierMismatch(s, b, index) then ResetPending
         else if Reached(total, b.limits) then Exhausted
         else if WarningReached(total, b) then Warning
         else Available)
  }

  /* ---------- Settling one reservation ---------- */

  function EntryOf(r: Reservation, t: Transition): UsageEntry {
    UsageEntry(UsageId(t.reservationId, t.transitionId, t.observed), r.organizationId, t.reservationId, r.budgetId,
               r.budgetDigest, r.scopeType, r.scopeId, r.operationId, t.observed, r.window.index, t.occurredAt)
  }

  function EventOf(t: Transition, subject: Subject): OutboxEvent {
    match t.state
    case Committed =>
      OutboxEvent(t.organizationId, subject, UsageCommitted, UsageId(t.reservationId, t.transitionId, t.observed),
                  t.request, t.occurredAt)
    case Expired => OutboxEvent(t.organizationId, subject, UsageExpired, t.transitionId, t.request, t.occurredAt)
    case _ => OutboxEvent(t.organizationId, subject, UsageReleased, t.transitionId, t.request, t.occurredAt)
  }

  function WithEvent(s: Ledger, event: OutboxEvent): Ledger {
    s.(audit := s.audit + [Emitted(event)], outbox := s.outbox + [event])
  }

  /** What moving reservation `r` out of the reserved state writes to the books. */
  function Booked(s: Ledger, k: AggregateKey, r: Reservation, t: Transition, aggregate: Aggregate): Ledger {
    s.(aggregates := s.aggregates[k := aggregate],
       transitions := s.transitions + [t],
       reservations := WithState(s.reservations, r.reservationId, t.state),
       idempotency :=
         if t.keyDigest.OfKey?
         then s.idempotency[IdempotencyKey(t.organizationId, t.state, t.keyDigest.key) :=
                            Binding(t.request, t.transitionId)]
         else s.idempotency,
       usageEntries := if t.state == Committed then s.usageEntries + [EntryOf(r, t)] else s.usageEntries)
  }

  /** Everything that settling reservation `r` of budget `b` writes, except the reconciliation mark. */
  function Settled(s: Ledger, b: Budget, r: Reservation, t: Transition, subject: Subject, aggregate: Aggregate)
    : Ledger
  {
    WithEvent(Booked(s, KeyOf(b, r.window.index), r, t, aggregate), EventOf(t, subject))
  }

  function SettledAggregate(s: Ledger, b: Budget, r: Reservation, t: Transition): Result<Aggregate, Denial> {
    var aggregate := AggregateAt(s, b, r.window.index, t.occurredAt);
    var committed :-
      if t.state == Committed then Checked(Plus(aggregate.committed, t.observed)) else Ok(aggregate.committed);
    var reserved :- SubtractDimensions(aggregate.reserved, r.requested);
    Ok(aggregate.(committed := committed, reserved := reserved, updatedAt := t.occurredAt))
  }

  function Settle(s: Ledger, r: Reservation, t: Transition, subject: Subject): Result<Ledger, Denial> {
    if BudgetKey(t.organizationId, r.budgetId) !in s.budgets then Err(KeyMissing)
    else
      var b := s.budgets[BudgetKey(t.organizationId, r.budgetId)];
      var aggregate :- SettledAggregate(s, b, r, t);
      MarkReconciled(Settled(s, b, r, t, subject, aggregate), b, r.window.index)
  }

  /* ---------- The clock and expiry, which every operation runs first ---------- */

  function AdvanceClock(s: Ledger, organizationId: string, now: int): Result<Ledger, Denial> {
    if organizationId in s.lastClock && now < s.lastClock[organizationId] then Err(ClockRegression)
    else Ok(s.(lastClock := s.lastClock[organizationId := now]))
  }

  function ExpiryOf(r: Reservation, now: int): Transition {
    var request := ExpiryRequest(r.reservationId, now);
    Transition(TransitionId(request), r.reservationId, r.organizationId, Expired, SystemExpiry(r.reservationId),
               request, Zero(), "RESERVATION_EXPIRED", now)
  }

  function ExpireAll(s: Ledger, due: seq<Reservation>, now: int): Result<Ledger, Denial>
    decreases |due|
  {
    if due == [] then Ok(s)
    else
      var next :- Settle(s, due[0], ExpiryOf(due[0], now), System);
      ExpireAll(next, due[1..], now)
  }

  function ExpireDue(s: Ledger, organizationId: string, now: int): Result<Ledger, Denial> {
    ExpireAll(s, Due(s.reservations, organizationId, now), now)
  }

  function Prepare(s: Ledger, organizationId: string, now: int): Result<Ledger, Denial> {
    var ticked :- AdvanceClock(s, organizationId, now);
    ExpireDue(ticked, organizationId, now)
  }

  function FindBudget(s: Ledger, organizationId: string, budgetId: string, budgetDigest: string, scopeType: string,
                      scopeId: string): (r: Result<Budget, Denial>)
  {
    if BudgetKey(organizationId, budgetId) !in s.budgets then Err(BudgetNotFound)
    else
      var b := s.budgets[BudgetKey(organizationId, budgetId)];
      if b.budgetDigest != budgetDigest then Err(BudgetDigestMismatch)
      else if scopeType != b.scopeType || scopeId != b.scopeId then Err(BudgetScopeMismatch)
      else Ok(b)
  }

  /** `_commit`: the candidate becomes the published ledger unless the store fails. */
  function Publish(s: Ledger, candidate: Ledger, fails: bool, response: Response): (Ledger, Response) {
    if fails then (s, Refused(StoreCommitFailed)) else (candidate, response)
  }

  /* ---------- Reserve ---------- */

  function ReserveRequestOf(who: Identity, terms: ReserveTerms, amounts: Dims): Request {
    ReserveRequest(who.organizationId, terms.budgetId, terms.budgetDigest, terms.scopeType, terms.scopeId,
                   terms.operationId, terms.key, amounts, terms.ttlSeconds)
  }

  function ReplayReserve(c: Ledger, binding: Binding, organizationId: string, request: Request): Response {
    if binding.request != request then Refused(IdempotencyConflict)
    else
      match FindReservation(c.reservations, binding.id)
      case None => Refused(KeyMissing)
      case Some(r) =>
        if BudgetKey(organizationId, r.budgetId) !in c.budgets then Refused(KeyMissing)
        else
          match BudgetState(c, c.budgets[BudgetKey(organizationId, r.budgetId)], r.window.index)
          case Err(code) => Refused(code)
          case Ok(state) => ReservationShown(r, state)
  }

  function WithDenial(c: Ledger, who: Identity, request: Request, reason: Denial, now: int): Ledger {
    c.(audit := c.audit + [Denied(who.organizationId, who.subjectId, request, reason, now)])
  }

  function Min(a: int, b: int): int {
    if a <= b then a else b
  }

  function NewReservation(b: Budget, who: Identity, request: Request, window: Window, exceeded: seq<string>, now: int)
    : Reservation
    requires request.ReserveRequest?
  {
    Reservation(ReservationId(request), who.organizationId, who.tokenDigest, b.budgetId, b.budgetDigest, b.scopeType,
                b.scopeId, request.operationId, request, request.key, request.requested, window, now,
                Min(now + request.ttlSeconds, window.end), b.enforcement, exceeded, Reserved)
  }

  /** Everything a new reservation writes, except the reconciliation mark. */
  function Admitted(c: Ledger, b: Budget, who: Identity, r: Reservation, aggregate: Aggregate): Ledger {
    WithEvent(
      c.(reservations := PutReservation(c.reservations, r),
         idempotency :=
             c.idempotency[IdempotencyKey(r.organizationId, Reserved, r.key) := Binding(r.request, r.reservationId)],
         aggregates := c.aggregates[KeyOf(b, r.window.index) := aggregate]),
      OutboxEvent(who.organizationId, Caller(who.subjectId), UsageReserved, r.reservationId, r.request, r.createdAt))
  }

  function Admit(c: Ledger, b: Budget, who: Identity, r: Reservation): Result<Ledger, Denial> {
    var aggregate := AggregateAt(c, b, r.window.index, r.createdAt);
    var reserved :- Checked(Plus(aggregate.reserved, r.requested));
    MarkReconciled(Admitted(c, b, who, r, aggregate.(reserved := reserved, updatedAt := r.createdAt)), b,
                   r.window.index)
  }

  /** The totals of the window if the request were granted. */
  function Projected(c: Ledger, b: Budget, index: nat, amounts: Dims, now: int): (r: Result<Dims, Denial>)
    ensures r.Err? ==> r.code == DimensionOverflow
  {
    var aggregate := AggregateAt(c, b, index, now);
    Checked(Plus(Plus(aggregate.committed, aggregate.reserved), amounts))
  }

  function ReserveFrom(s: Ledger, c: Ledger, b: Budget, who: Identity, request: Request, now: int, fails: bool)
    : (Ledger, Response)
    requires request.ReserveRequest?
  {
    if !b.enabled then
      Publish(s, WithDenial(c, who, request, BudgetSuspended, now), fails, Refused(BudgetSuspended))
    else if !(1 <= request.ttlSeconds <= Min(3600, b.reservationTtlSeconds)) then (s, Refused(ReservationTtlInvalid))
    else
      match WindowAt(b, now)
      case Err(code) => (s, Refused(code))
      case Ok(window) =>
        match Projected(c, b, window.index, request.requested, now)
        case Err(code) => (s, Refused(code))
        case Ok(projected) =>
          var exceeded := ExceededDimensions(projected, b.limits);
          if exceeded != [] && b.enforcement == Hard then
            Publish(s, WithDenial(c, who, request, BudgetExceeded, now), fails, Refused(BudgetExceeded))
          else
            var r := NewReservation(b, who, request, window, exceeded, now);
            match Admit(c, b, who, r)
            case Err(code) => (s, Refused(code))
            case Ok(next) =>
              Publish(s, next, fails,
                match BudgetState(next, b, window.index)
                case Err(code) => Refused(code)
                case Ok(state) => ReservationShown(r, state))
  }

  function ReserveStep(s: Ledger, who: Identity, terms: ReserveTerms, now: int, fails: bool): (Ledger, Response) {
    match Normalized(terms.requested, RequestedInvalid, true)
    case Err(code) => (s, Refused(code))
    case Ok(amounts) =>
      var request := ReserveRequestOf(who, terms, amounts);
      match Prepare(s, who.organizationId, now)
      case Err(code) => (s, Refused(code))
      case Ok(c) =>
        var key := IdempotencyKey(who.organizationId, Reserved, terms.key);
        if key in c.idempotency then (s, ReplayReserve(c, c.idempotency[key], who.organizationId, request))
        else
          match FindBudget(c, who.organizationId, terms.budgetId, terms.budgetDigest, terms.scopeType, terms.scopeId)
          case Err(code) => (s, Refused(code))
          case Ok(b) => ReserveFrom(s, c, b, who, request, now, fails)
  }

  /* ---------- Commit and release ---------- */

  function TransitionOf(request: Request, now: int): Transition
    requires request.TransitionRequest?
  {
    Transition(TransitionId(request), request.reservationId, request.organizationId, request.target, OfKey(request.key),
               request, request.observed, request.reason, now)
  }

  function ReplayTransition(c: Ledger, binding: Binding, request: Request): Response {
    if binding.request != request then Refused(IdempotencyConflict)
    else
      match FindTransition(c.transitions, binding.id)
      case None => Refused(KeyMissing)
      case Some(t) => TransitionShown(t)
  }

  function TransitionFrom(s: Ledger, c: Ledger, who: Identity, request: Request, now: int, fails: bool)
    : (Ledger, Response)
    requires request.TransitionRequest?
  {
    match FindReservation(c.reservations, request.reservationId)
    case None => (s, Refused(ReservationNotFound))
    case Some(r) =>
      if r.organizationId != who.organizationId then (s, Refused(ReservationNotFound))
      else if r.state == Expired then (s, Refused(ReservationExpired))
      else if r.state != Reserved then (s, Refused(ReservationTerminal))
      else if request.target == Committed && !Le(request.observed, r.requested)
      then (s, Refused(CommitExceedsReservation))
      else
        match Settle(c, r, TransitionOf(request, now), Caller(who.subjectId))
        case Err(code) => (s, Refused(code))
        case Ok(next) => Publish(s, next, fails, TransitionShown(TransitionOf(request, now)))
  }

  function TransitionStep(s: Ledger, who: Identity, reservationId: Id, key: string, observed: Dims,
                          target: ReservationState, reason: string, now: int, fails: bool): (Ledger, Response)
  {
    var request := TransitionRequest(who.organizationId, reservationId, target, key, observed, reason);
    match Prepare(s, who.organizationId, now)
    case Err(code) => (s, Refused(code))
    case Ok(c) =>
      var bound := IdempotencyKey(who.organizationId, target, key);
      if bound in c.idempotency then (s, ReplayTransition(c, c.idempotency[bound], request))
      else TransitionFrom(s, c, who, request, now, fails)
  }

  function CommitStep(s: Ledger, who: Identity, reservationId: Id, key: string, observed: map<string, int>, now: int,
                      fails: bool): (Ledger, Response)
  {
    match Normalized(observed, ObservedInvalid, false)
    case Err(code) => (s, Refused(code))
    case Ok(amounts) => TransitionStep(s, who, reservationId, key, amounts, Committed, "USAGE_COMMITTED", now, fails)
  }

  function ReleaseStep(s: Ledger, who: Identity, reservationId: Id, key: string, reason: string, now: int, fails: bool)
    : (Ledger, Response)
  {
    TransitionStep(s, who, reservationId, key, Zero(), Released, reason, now, fails)
  }

  /* ---------- Evaluate, reconcile, retention ---------- */

  function EvaluationOf(c: Ledger, b: Budget, window: Window, amounts: Dims, now: int): (r: Result<Evaluation, Denial>)
    ensures r.Err? ==> r.code == DimensionOverflow
  {
    var projected :- Projected(c, b, window.index, amounts, now);
    var exceeded := ExceededDimensions(projected, b.limits);
    var state :- BudgetState(c, b, window.index);
    Ok(Evaluation(b.budgetId, b.budgetDigest, b.scopeType, b.scopeId, state, b.enforcement,
                  b.enabled && (exceeded == [] || b.enforcement == Advisory), exceeded, projected, window))
  }

  /** An evaluation publishes its candidate only when the clock or an expiry changed it. */
  function EvaluateFrom(s: Ledger, c: Ledger, b: Budget, amounts: Dims, now: int, fails: bool): (Ledger, Response) {
    match WindowAt(b, now)
    case Err(code) => (s, Refused(code))
    case Ok(window) =>
      match EvaluationOf(c, b, window, amounts, now)
      case Err(code) => (s, Refused(code))
      case Ok(evaluation) =>
        if c == s then (s, EvaluationShown(evaluation))
        else
          match MarkReconciled(c, b, window.index)
          case Err(code) => (s, Refused(code))
          case Ok(next) => Publish(s, next, fails, EvaluationShown(evaluation))
  }

  function EvaluateStep(s: Ledger, who: Identity, budgetId: string, budgetDigest: string, scopeType: string,
                        scopeId: string,
                        requested: map<string, int>, now: int, fails: bool): (Ledger, Response)
  {
    match Normalized(requested, RequestedInvalid, true)
    case Err(code) => (s, Refused(code))
    case Ok(amounts) =>
      match Prepare(s, who.organizationId, now)
      case Err(code) => (s, Refused(code))
      case Ok(c) =>
        match FindBudget(c, who.organizationId, budgetId, budgetDigest, scopeType, scopeId)
        case Err(code) => (s, Refused(code))
        case Ok(b) => EvaluateFrom(s, c, b, amounts, now, fails)
  }

  function ReconcileFrom(s: Ledger, c: Ledger, b: Budget, who: Identity, budgetId: string, now: int, fails: bool)
    : (Ledger, Response)
  {
    match WindowAt(b, now)
    case Err(code) => (s, Refused(code))
    case Ok(window) =>
      match Recomputed(c, b, window.index, now)
      case Err(code) => (s, Refused(code))
      case Ok(expected) =>
        var observed := AggregateAt(c, b, window.index, now);
        var finding := ReconciliationFinding(who.organizationId, budgetId, window.index, DigestOf(expected),
                                             DigestOf(observed), StatusOf(expected, observed), now);
        Publish(s, c.(reconciliations := c.reconciliations + [finding],
                      reconciled := c.reconciled[KeyOf(b, window.index) := finding.status]),
                fails, ReconciliationShown(finding))
  }

  function ReconcileStep(s: Ledger, who: Identity, budgetId: string, now: int, fails: bool): (Ledger, Response) {
    match Prepare(s, who.organizationId, now)
    case Err(code) => (s, Refused(code))
    case Ok(c) =>
      if BudgetKey(who.organizationId, budgetId) !in c.budgets then (s, Refused(BudgetNotFound))
      else ReconcileFrom(s, c, c.budgets[BudgetKey(who.organizationId, budgetId)], who, budgetId, now, fails)
  }

  function History(es: seq<UsageEntry>, organizationId: string, budgetId: string, cutoff: int): seq<UsageEntry> {
    if es == [] then []
    else
      var last := es[|es| - 1];
      var earlier := History(es[..|es| - 1], organizationId, budgetId, cutoff);
      if last.organizationId == organizationId && last.budgetId == budgetId && last.windowIndex <= cutoff
      then earlier + [last]
      else earlier
  }

  /** Retention advances the clock but expires nothing. */
  function RetentionStep(s: Ledger, who: Identity, budgetId: string, now: int, fails: bool): (Ledger, Response) {
    match AdvanceClock(s, who.organizationId, now)
    case Err(code) => (s, Refused(code))
    case Ok(c) =>
      if BudgetKey(who.organizationId, budgetId) !in c.budgets then (s, Refused(BudgetNotFound))
      else
        var b := c.budgets[BudgetKey(who.organizationId, budgetId)];
        match WindowAt(b, now)
        case Err(code) => (s, Refused(code))
        case Ok(window) =>
          var cutoff := window.index - b.retentionWindows;
          var history := History(c.usageEntries, who.organizationId, budgetId, cutoff);
          var finding := RetentionFinding(who.organizationId, budgetId, cutoff, history, history != [], now);
          Publish(s, c.(retentions := c.retentions + [finding]), fails, RetentionShown(finding))
  }

  function AddBudgetStep(s: Ledger, budget: Budget, fails: bool): (Ledger, Response) {
    var key := BudgetKey(budget.organizationId, budget.budgetId);
    if key in s.budgets then (s, if s.budgets[key] == budget then BudgetAdded else Refused(BudgetConflict))
    else Publish(s, s.(budgets := s.budgets[key := budget]), fails, BudgetAdded)
  }

  /* ---------- Runs ---------- */

  datatype Event = Event(op: Op, storeFails: bool)

  function Step(s: Ledger, e: Event): (Ledger, Response) {
    match e.op
    case AddBudget(b) => AddBudgetStep(s, b, e.storeFails)
    case Reserve(who, terms, now) => ReserveStep(s, who, terms, now, e.storeFails)
    case Commit(who, id, key, observed, now) => CommitStep(s, who, id, key, observed, now, e.storeFails)
    case Release(who, id, key, reason, now) => ReleaseStep(s, who, id, key, reason, now, e.storeFails)
    case Evaluate(who, budgetId, digest, scopeType, scopeId, requested, now) =>
      EvaluateStep(s, who, budgetId, digest, scopeType, scopeId, requested, now, e.storeFails)
    case Reconcile(who, budgetId, now) => ReconcileStep(s, who, budgetId, now, e.storeFails)
    case RetentionDue(who, budgetId, now) => RetentionStep(s, who, budgetId, now, e.storeFails)
  }

  /** The ledger after a run; each event is one locked method call. */
  function Run(s: Ledger, es: seq<Event>): Ledger {
    if es == [] then s else Step(Run(s, es[..|es| - 1]), es[|es| - 1]).0
  }

  function Responses(s: Ledger, es: seq<Event>): seq<Response> {
    if es == [] then []
    else Responses(s, es[..|es| - 1]) + [Step(Run(s, es[..|es| - 1]), es[|es| - 1]).1]
  }
}
