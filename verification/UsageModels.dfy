/** The immutable records of the usage ledger. Times are whole seconds. A digest is the value
    it digests, so distinct contents have distinct digests. */
module UsageModels {
  import opened Results
  import opened Dimensions

  datatype Enforcement = Hard | Advisory

  datatype ReservationState = Reserved | Committed | Released | Expired

  datatype BudgetStateCode = Available | Warning | Exhausted | Suspended | ResetPending

  datatype Status = Match | Mismatch

  /** What the three request digests are computed from. */
  datatype Request =
    | ReserveRequest(organizationId: string, budgetId: string, budgetDigest: string, scopeType: string,
                     scopeId: string, operationId: string, key: string, requested: Dims, ttlSeconds: int)
    | TransitionRequest(organizationId: string, reservationId: Id, target: ReservationState, key: string,
                        observed: Dims, reason: string)
    | ExpiryRequest(reservationId: Id, expiredAt: int)

  /** Identifiers derived from digests, and any other text a caller may supply. */
  datatype Id =
    | ReservationId(request: Request)
    | TransitionId(request: Request)
    | UsageId(reservationId: Id, transitionId: Id, dimensions: Dims)
    | Supplied(text: string)

  datatype KeyDigest = OfKey(key: string) | SystemExpiry(reservationId: Id)

  datatype Window = Window(index: nat, start: int, end: int)

  datatype BudgetDefinition = BudgetDefinition(
    organizationId: string, budgetId: string, budgetDigest: string, scopeType: string, scopeId: string,
    limits: Dims, enforcement: Enforcement, windowEpoch: int, windowSeconds: int, warningBasisPoints: int,
    reservationTtlSeconds: int, retentionWindows: int, enabled: bool)

  const SCOPES: set<string> := {"TENANT", "PROFILE", "ROUTE", "WORKFLOW"}

  /** What the constructor of a budget definition guarantees. */
  predicate ValidBudget(b: BudgetDefinition) {
    && b.scopeType in SCOPES
    && 60 <= b.windowSeconds <= 31_536_000
    && 1 <= b.warningBasisPoints <= 9999
    && 1 <= b.reservationTtlSeconds <= 3600
    && 1 <= b.retentionWindows <= 366
    && IsSafe(b.limits)
    && (exists i | 0 <= i < COUNT :: b.limits[i] != 0)
  }

  type Budget = b: BudgetDefinition | ValidBudget(b)
    witness SampleBudget()

  function SampleBudget(): (b: BudgetDefinition)
    ensures ValidBudget(b)
  {
    var limits: Dims := seq(COUNT, i => 1);
    assert limits[0] != 0;
    BudgetDefinition("o", "b", "d", "TENANT", "s", limits, Hard, 0, 60, 1, 1, 1, true)
  }

  /** The constructor's checks, in the constructor's order. */
  function DefineBudget(
    organizationId: string, budgetId: string, budgetDigest: string, scopeType: string, scopeId: string,
    limits: map<string, int>, enforcement: Enforcement, windowEpoch: int, windowSeconds: int,
    warningBasisPoints: int, reservationTtlSeconds: int, retentionWindows: int, enabled: bool)
    : (r: Result<Budget, Denial>)
    ensures r.Ok? <==>
              && scopeType in SCOPES
              && 60 <= windowSeconds <= 31_536_000
              && 1 <= warningBasisPoints <= 9999
              && 1 <= reservationTtlSeconds <= 3600
              && 1 <= retentionWindows <= 366
              && Acceptable(limits, true)
    ensures r.Ok? ==>
              && r.value.organizationId == organizationId && r.value.budgetId == budgetId
              && r.value.budgetDigest == budgetDigest
              && r.value.scopeType == scopeType && r.value.scopeId == scopeId
              && r.value.limits == Padded(limits) && r.value.enforcement == enforcement
              && r.value.windowEpoch == windowEpoch && r.value.windowSeconds == windowSeconds
              && r.value.warningBasisPoints == warningBasisPoints
              && r.value.reservationTtlSeconds == reservationTtlSeconds
              && r.value.retentionWindows == retentionWindows && r.value.enabled == enabled
    ensures r == Err(ScopeTypeInvalid) <==> scopeType !in SCOPES
    ensures r == Err(WindowSecondsInvalid) <==> scopeType in SCOPES && !(60 <= windowSeconds <= 31_536_000)
    ensures r == Err(WarningThresholdInvalid) <==>
              scopeType in SCOPES && 60 <= windowSeconds <= 31_536_000 && !(1 <= warningBasisPoints <= 9999)
    ensures r == Err(ReservationTtlInvalid) <==>
              && scopeType in SCOPES && 60 <= windowSeconds <= 31_536_000 && 1 <= warningBasisPoints <= 9999
              && !(1 <= reservationTtlSeconds <= 3600)
    ensures r == Err(RetentionWindowsInvalid) <==>
              && scopeType in SCOPES && 60 <= windowSeconds <= 31_536_000 && 1 <= warningBasisPoints <= 9999
              && 1 <= reservationTtlSeconds <= 3600 && !(1 <= retentionWindows <= 366)
    ensures r == Err(LimitsInvalid) <==>
              && scopeType in SCOPES && 60 <= windowSeconds <= 31_536_000 && 1 <= warningBasisPoints <= 9999
              && 1 <= reservationTtlSeconds <= 3600 && 1 <= retentionWindows <= 366 && !Acceptable(limits, true)
  {
    if scopeType !in SCOPES then Err(ScopeTypeInvalid)
    else if !(60 <= windowSeconds <= 31_536_000) then Err(WindowSecondsInvalid)
    else if !(1 <= warningBasisPoints <= 9999) then Err(WarningThresholdInvalid)
    else if !(1 <= reservationTtlSeconds <= 3600) then Err(ReservationTtlInvalid)
    else if !(1 <= retentionWindows <= 366) then Err(RetentionWindowsInvalid)
    else
      var normalized :- Normalized(limits, LimitsInvalid, true);
      assert exists i | 0 <= i < COUNT :: normalized[i] != 0 by {
        var name :| name in limits && limits[name] != 0;
        var i :| 0 <= i < COUNT && NAMES[i] == name;
        assert normalized[i] == limits[name];
      }
      Ok(BudgetDefinition(organizationId, budgetId, budgetDigest, scopeType, scopeId, normalized, enforcement,
                windowEpoch, windowSeconds, warningBasisPoints, reservationTtlSeconds, retentionWindows, enabled))
  }

  function Quotient(n: nat, d: nat): (q: nat)
    requires d > 0
    ensures q * d <= n < (q + 1) * d
  {
    n / d
  }

  function WindowIndex(b: Budget, now: int): nat
    requires b.windowEpoch <= now
  {
    Quotient(now - b.windowEpoch, b.windowSeconds)
  }

  function WindowStart(b: Budget, index: nat): int {
    b.windowEpoch + index * b.windowSeconds
  }

  function WindowEnd(b: Budget, index: nat): int {
    WindowStart(b, index) + b.windowSeconds
  }

  /** Tumbling windows: the one window of the budget that contains `now`. */
  function WindowAt(b: Budget, now: int): (r: Result<Window, Denial>)
    ensures r.Ok? <==> b.windowEpoch <= now
    ensures r.Err? ==> r.code == WindowNotStarted
    ensures r.Ok? ==> r.value == Window(WindowIndex(b, now), WindowStart(b, r.value.index), WindowEnd(b, r.value.index))
    ensures r.Ok? ==> r.value.start <= now < r.value.end
  {
    if now < b.windowEpoch then Err(WindowNotStarted)
    else
      var index := WindowIndex(b, now);
      assert (index + 1) * b.windowSeconds == index * b.windowSeconds + b.windowSeconds;
      Ok(Window(index, WindowStart(b, index), WindowEnd(b, index)))
  }

  lemma MultiplesAreOrdered(i: nat, j: nat, d: nat)
    requires i < j
    ensures (i + 1) * d <= j * d
  {
  }

  /** A moment lies in exactly one window, so containing windows have the same index. */
  lemma WindowIsUnique(b: Budget, now: int, index: nat)
    requires b.windowEpoch <= now
    requires WindowStart(b, index) <= now < WindowEnd(b, index)
    ensures WindowIndex(b, now) == index
  {
    var n, d := now - b.windowEpoch, b.windowSeconds;
    var q := Quotient(n, d);
    assert (index + 1) * d == index * d + d;
    if q < index {
      MultiplesAreOrdered(q, index, d);
    } else if index < q {
      MultiplesAreOrdered(index, q, d);
    }
  }

  datatype Reservation = Reservation(
    reservationId: Id, organizationId: string, subjectDigest: string, budgetId: string, budgetDigest: string,
    scopeType: string, scopeId: string, operationId: string, request: Request, key: string,
    requested: Dims, window: Window, createdAt: int, expiresAt: int, enforcement: Enforcement,
    exceeded: seq<string>, state: ReservationState)

  datatype Transition = Transition(
    transitionId: Id, reservationId: Id, organizationId: string, state: ReservationState, keyDigest: KeyDigest,
    request: Request, observed: Dims, reason: string, occurredAt: int)

  datatype UsageEntry = UsageEntry(
    usageEntryId: Id, organizationId: string, reservationId: Id, budgetId: string, budgetDigest: string,
    scopeType: string, scopeId: string, operationId: string, dimensions: Dims, windowIndex: nat, recordedAt: int)

  datatype Aggregate = Aggregate(
    organizationId: string, budgetId: string, windowIndex: nat, committed: Dims, reserved: Dims, updatedAt: int)

  /** The digest of an aggregate leaves out when it was updated. */
  datatype AggregateDigest = AggregateDigest(
    organizationId: string, budgetId: string, windowIndex: nat, committed: Dims, reserved: Dims)

  function DigestOf(a: Aggregate): AggregateDigest {
    AggregateDigest(a.organizationId, a.budgetId, a.windowIndex, a.committed, a.reserved)
  }

  datatype ReconciliationFinding = ReconciliationFinding(
    organizationId: string, budgetId: string, windowIndex: nat, expected: AggregateDigest,
    observed: AggregateDigest, status: Status, recordedAt: int)

  datatype RetentionFinding = RetentionFinding(
    organizationId: string, budgetId: string, cutoff: int, history: seq<UsageEntry>, due: bool, recordedAt: int)

  datatype EventType = UsageReserved | UsageCommitted | UsageReleased | UsageExpired

  datatype Subject = System | Caller(subjectId: string)

  datatype OutboxEvent = OutboxEvent(
    organizationId: string, subject: Subject, kind: EventType, aggregateId: Id, request: Request, recordedAt: int)

  datatype AuditRecord =
    | Denied(organizationId: string, subjectId: string, request: Request, reason: Denial, recordedAt: int)
    | Emitted(event: OutboxEvent)

  datatype BudgetKey = BudgetKey(organizationId: string, budgetId: string)

  datatype AggregateKey = AggregateKey(organizationId: string, budgetId: string, windowIndex: nat)

  /** `kind` is the operation the key was used for: `Reserved` for a reserve call,
      `Committed` and `Released` for the two transitions. */
  datatype IdempotencyKey = IdempotencyKey(organizationId: string, kind: ReservationState, key: string)

  datatype Binding = Binding(request: Request, id: Id)
}
