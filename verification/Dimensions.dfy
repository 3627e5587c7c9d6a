/** The closed set of resource dimensions and their checked integer arithmetic. */
module Dimensions {
  import opened Results

  /** Reason codes raised by the usage ledger, and the two internal failures (a missing
      dictionary key, an exhausted generator) that it never intends to raise. */
  datatype Denial =
    | RequestedInvalid | ObservedInvalid | LimitsInvalid
    | DimensionOverflow | CounterUnderflow
    | ScopeTypeInvalid | WindowSecondsInvalid | WarningThresholdInvalid
    | ReservationTtlInvalid | RetentionWindowsInvalid
    | WindowNotStarted | ClockRegression | StoreCommitFailed
    | BudgetConflict | BudgetNotFound | BudgetDigestMismatch | BudgetScopeMismatch
    | BudgetSuspended | BudgetExceeded
    | IdempotencyConflict
    | ReservationNotFound | ReservationExpired | ReservationTerminal | CommitExceedsReservation
    | KeyMissing

  const COUNT: nat := 11

  const NAMES: seq<string> := [
    "concurrentTasks", "taskSeconds", "retries", "toolCalls", "modelTokens", "modelCalls",
    "inputTokens", "outputTokens", "cpuSeconds", "gpuSeconds", "storageBytes"
  ]

  const SAFE_INTEGER_MAX: nat := 9_000_000_000_000_000

  const PUBLIC_MAXIMA: map<string, nat> := map[
    "concurrentTasks" := 1024,
    "taskSeconds" := 86400,
    "retries" := 100,
    "toolCalls" := 10000,
    "modelTokens" := 10000000
  ]

  /** One amount per dimension, in the order of `NAMES`. */
  type Dims = d: seq<nat> | |d| == COUNT witness seq(COUNT, i => 0)

  function Zero(): (r: Dims)
    ensures forall i | 0 <= i < COUNT :: r[i] == 0
  {
    seq(COUNT, i => 0)
  }

  function Plus(a: Dims, b: Dims): (r: Dims)
    ensures forall i | 0 <= i < COUNT :: r[i] == a[i] + b[i]
  {
    seq(COUNT, i requires 0 <= i < COUNT => a[i] + b[i])
  }

  predicate Le(a: Dims, b: Dims) {
    forall i | 0 <= i < COUNT :: a[i] <= b[i]
  }

  predicate IsSafe(d: Dims) {
    forall i | 0 <= i < COUNT :: d[i] <= SAFE_INTEGER_MAX
  }

  /** The plain vector sum, without the overflow check. */
  function Total(values: seq<Dims>): Dims {
    if values == [] then Zero() else Plus(Total(values[..|values| - 1]), values[|values| - 1])
  }

  function Checked(d: Dims): (r: Result<Dims, Denial>)
    ensures r.Err? ==> r.code == DimensionOverflow
  {
    if IsSafe(d) then Ok(d) else Err(DimensionOverflow)
  }

  /** Adding up keeps every earlier partial sum below the later ones. */
  lemma {:induction false} TotalGrows(values: seq<Dims>, n: nat)
    requires n <= |values|
    ensures Le(Total(values[..n]), Total(values))
    decreases |values| - n
  {
    if n == |values| {
      assert values[..n] == values;
    } else {
      TotalGrows(values, n + 1);
      assert values[..n + 1][..n] == values[..n];
    }
  }

  /** Running accumulation with an overflow check after every single addition. The early
      failure agrees with one check of the grand total, because no amount is negative. */
  method AddDimensions(values: seq<Dims>) returns (r: Result<Dims, Denial>)
    ensures r == Checked(Total(values))
  {
    var result: Dims := Zero();
    var n := 0;
    while n < |values|
      invariant 0 <= n <= |values|
      invariant result == Total(values[..n]) && IsSafe(result)
    {
      var value := values[n];
      ghost var before := result;
      ghost var after := Total(values[..n + 1]);
      assert values[..n + 1][..n] == values[..n];
      TotalGrows(values, n + 1);
      var i := 0;
      while i < COUNT
        invariant 0 <= i <= COUNT
        invariant forall j | 0 <= j < i :: result[j] == after[j] <= SAFE_INTEGER_MAX
        invariant forall j | i <= j < COUNT :: result[j] == before[j]
      {
        result := result[i := result[i] + value[i]];
        if result[i] > SAFE_INTEGER_MAX {
          assert Total(values)[i] >= after[i] > SAFE_INTEGER_MAX;
          return Err(DimensionOverflow);
        }
        i := i + 1;
      }
      assert result == after;
      n := n + 1;
    }
    assert values[..n] == values;
    return Ok(result);
  }

  function SubtractDimensions(left: Dims, right: Dims): (r: Result<Dims, Denial>)
    ensures r.Ok? <==> Le(right, left)
    ensures r.Ok? ==> Plus(r.value, right) == left
    ensures r.Err? ==> r.code == CounterUnderflow
  {
    if Le(right, left) then
      var d: Dims := seq(COUNT, i requires 0 <= i < COUNT => left[i] - right[i]);
      assert Plus(d, right) == left;
      Ok(d)
    else
      Err(CounterUnderflow)
  }

  /** The names, in order, of the dimensions from `i` on in which `value` is over its limit. */
  function ExceededFrom(value: Dims, limits: Dims, i: nat): (r: seq<string>)
    requires i <= COUNT
    ensures r == [] <==> forall j | i <= j < COUNT :: value[j] <= limits[j]
    decreases COUNT - i
  {
    if i == COUNT then []
    else if value[i] > limits[i] then [NAMES[i]] + ExceededFrom(value, limits, i + 1)
    else ExceededFrom(value, limits, i + 1)
  }

  function ExceededDimensions(value: Dims, limits: Dims): (r: seq<string>)
    ensures r == [] <==> Le(value, limits)
  {
    ExceededFrom(value, limits, 0)
  }

  lemma NamesAreDistinct(i: nat, j: nat)
    requires i < j < COUNT
    ensures NAMES[i] != NAMES[j]
  {
  }

  lemma {:induction false} ExceededFromNames(value: Dims, limits: Dims, i: nat, j: nat)
    requires i <= COUNT && j < COUNT
    ensures NAMES[j] in ExceededFrom(value, limits, i) <==> i <= j && value[j] > limits[j]
    decreases COUNT - i
  {
    if i < COUNT {
      ExceededFromNames(value, limits, i + 1, j);
      if i < j {
        NamesAreDistinct(i, j);
      } else if j < i {
        NamesAreDistinct(j, i);
      }
    }
  }

  /** The names listed are exactly those of the dimensions over their limit. */
  lemma ExceededNames(value: Dims, limits: Dims, j: nat)
    requires j < COUNT
    ensures NAMES[j] in ExceededDimensions(value, limits) <==> value[j] > limits[j]
  {
    ExceededFromNames(value, limits, 0, j);
  }

  /** `names` are the names of exactly the dimensions over their limit, in order. */
  ghost predicate NamesThoseOver(names: seq<string>, value: seq<int>, limits: Dims) {
    |value| == COUNT && exists ds: seq<nat> :: PicksThoseOver(ds, names, value, limits, 0)
  }

  ghost predicate PicksThoseOver(ds: seq<nat>, names: seq<string>, value: seq<int>, limits: Dims, i: nat)
    requires |value| == COUNT
  {
    && |ds| == |names|
    && (forall j | 0 <= j < |ds| :: i <= ds[j] < COUNT && names[j] == NAMES[ds[j]])
    && (forall j, l | 0 <= j < l < |ds| :: ds[j] < ds[l])
    && (forall d | i <= d < COUNT :: d in ds <==> value[d] > limits[d])
  }

  lemma {:induction false} ExceededFromPicks(value: Dims, limits: Dims, i: nat) returns (ds: seq<nat>)
    requires i <= COUNT
    ensures PicksThoseOver(ds, ExceededFrom(value, limits, i), value, limits, i)
    decreases COUNT - i
  {
    hide PicksThoseOver;
    if i == COUNT {
      ds := [];
      NoneIsOver(value, limits);
    } else {
      ds := ExceededFromPicks(value, limits, i + 1);
      if value[i] > limits[i] {
        OverIsPicked(ds, ExceededFrom(value, limits, i + 1), value, limits, i);
        ds := [i] + ds;
      } else {
        UnderIsPassed(ds, ExceededFrom(value, limits, i + 1), value, limits, i);
      }
    }
  }

  lemma NoneIsOver(value: Dims, limits: Dims)
    ensures PicksThoseOver([], [], value, limits, COUNT)
  {
  }

  lemma OverIsPicked(ds: seq<nat>, names: seq<string>, value: Dims, limits: Dims, i: nat)
    requires i < COUNT && value[i] > limits[i] && PicksThoseOver(ds, names, value, limits, i + 1)
    ensures PicksThoseOver([i] + ds, [NAMES[i]] + names, value, limits, i)
  {
  }

  lemma UnderIsPassed(ds: seq<nat>, names: seq<string>, value: Dims, limits: Dims, i: nat)
    requires i < COUNT && value[i] <= limits[i] && PicksThoseOver(ds, names, value, limits, i + 1)
    ensures PicksThoseOver(ds, names, value, limits, i)
  {
  }

  lemma ExceededNamesThoseOver(value: Dims, limits: Dims)
    ensures NamesThoseOver(ExceededDimensions(value, limits), value, limits)
  {
    var ds := ExceededFromPicks(value, limits, 0);
  }

  predicate Reached(value: Dims, limits: Dims) {
    exists i | 0 <= i < COUNT :: limits[i] > 0 && value[i] >= limits[i]
  }

  predicate InRange(name: string, amount: int): (r: bool)
    ensures r ==> 0 <= amount <= SAFE_INTEGER_MAX
  {
    0 <= amount <= SAFE_INTEGER_MAX && (name in PUBLIC_MAXIMA ==> amount <= PUBLIC_MAXIMA[name])
  }

  /** What `normalize_dimensions` accepts: known names, amounts in range and below the public
      maxima, and at least one positive amount where that is required. */
  predicate Acceptable(value: map<string, int>, requireNonzero: bool) {
    && value != map[]
    && (forall name | name in value :: name in NAMES && InRange(name, value[name]))
    && (requireNonzero ==> exists name | name in value :: value[name] != 0)
  }

  function Padded(value: map<string, int>): (r: Dims)
    requires Acceptable(value, false)
    ensures forall i | 0 <= i < COUNT ::
              r[i] == if NAMES[i] in value then value[NAMES[i]] else 0
  {
    seq(COUNT, i requires 0 <= i < COUNT => if NAMES[i] in value then value[NAMES[i]] else 0)
  }

  function Normalized(value: map<string, int>, refusal: Denial, requireNonzero: bool): (r: Result<Dims, Denial>)
    ensures r.Ok? ==> IsSafe(r.value)
    ensures r.Err? ==> r.code == refusal
  {
    if Acceptable(value, requireNonzero) then Ok(Padded(value)) else Err(refusal)
  }

  function AmountOf(value: map<string, int>, name: string): int {
    if name in value then value[name] else 0
  }

  /** The amount of `name`, where one is supplied, is not negative and at most `maximum`. */
  predicate Within(value: map<string, int>, name: string, maximum: int) {
    name in value ==> 0 <= value[name] <= maximum
  }

  const KNOWN: set<string> := {
    "concurrentTasks", "taskSeconds", "retries", "toolCalls", "modelTokens", "modelCalls", "inputTokens",
    "outputTokens", "cpuSeconds", "gpuSeconds", "storageBytes"
  }

  ghost predicate WithinMaxima(value: map<string, int>) {
    && Within(value, "concurrentTasks", 1024)
    && Within(value, "taskSeconds", 86_400)
    && Within(value, "retries", 100)
    && Within(value, "toolCalls", 10_000)
    && Within(value, "modelTokens", 10_000_000)
    && forall name | name in value :: 0 <= value[name] <= 9_000_000_000_000_000
  }

  function InOrder(value: map<string, int>): seq<int> {
    [AmountOf(value, "concurrentTasks"), AmountOf(value, "taskSeconds"), AmountOf(value, "retries"),
     AmountOf(value, "toolCalls"), AmountOf(value, "modelTokens"), AmountOf(value, "modelCalls"),
     AmountOf(value, "inputTokens"), AmountOf(value, "outputTokens"), AmountOf(value, "cpuSeconds"),
     AmountOf(value, "gpuSeconds"), AmountOf(value, "storageBytes")]
  }

  lemma NameIsKnown(name: string)
    ensures name in NAMES <==> name in KNOWN
  {
    assert NAMES[..6] + NAMES[6..] == NAMES;
  }

  lemma RangeOfOne(name: string, amount: int)
    ensures InRange(name, amount) <==>
              && 0 <= amount <= 9_000_000_000_000_000
              && (name == "concurrentTasks" ==> amount <= 1024)
              && (name == "taskSeconds" ==> amount <= 86_400)
              && (name == "retries" ==> amount <= 100)
              && (name == "toolCalls" ==> amount <= 10_000)
              && (name == "modelTokens" ==> amount <= 10_000_000)
  {
  }

  lemma RangeIsKnown(value: map<string, int>)
    ensures (forall name | name in value :: name in NAMES && InRange(name, value[name])) <==>
            value.Keys <= KNOWN && WithinMaxima(value)
  {
    hide InRange;
    forall name
      ensures name in NAMES <==> name in KNOWN
    {
      NameIsKnown(name);
    }
    forall name | name in value
      ensures InRange(name, value[name]) <==>
                && 0 <= value[name] <= 9_000_000_000_000_000
                && (name == "concurrentTasks" ==> value[name] <= 1024)
                && (name == "taskSeconds" ==> value[name] <= 86_400)
                && (name == "retries" ==> value[name] <= 100)
                && (name == "toolCalls" ==> value[name] <= 10_000)
                && (name == "modelTokens" ==> value[name] <= 10_000_000)
    {
      RangeOfOne(name, value[name]);
    }
  }

  lemma PaddedInOrder(value: map<string, int>)
    requires Acceptable(value, false)
    ensures Padded(value) == InOrder(value)
  {
    hide Acceptable;
  }

  /** Amounts are accepted exactly when there is at least one -- a positive one where that is required --
      all go by one of the eleven names, and each is within its maximum. The vector holds them in the
      order of the names. */
  lemma NormalizedExactly(value: map<string, int>, refusal: Denial, requireNonzero: bool)
    ensures var r := Normalized(value, refusal, requireNonzero);
            if value != map[] && value.Keys <= KNOWN && WithinMaxima(value) &&
               (requireNonzero ==> exists name | name in value :: value[name] > 0)
            then r.Ok? && r.value == InOrder(value)
            else r == Err(refusal)
  {
    hide InOrder, Padded, WithinMaxima;
    RangeIsKnown(value);
    if Acceptable(value, false) {
      PaddedInOrder(value);
    }
  }

  /** Fills a zero vector from the supplied names, one entry at a time in any order, and
      refuses at the first entry that is unknown or out of range. */
  method NormalizeDimensions(value: map<string, int>, refusal: Denial, requireNonzero: bool)
    returns (r: Result<Dims, Denial>)
    ensures r == Normalized(value, refusal, requireNonzero)
  {
    hide InRange;
    if value == map[] || exists name | name in value :: name !in NAMES {
      return Err(refusal);
    }
    var normalized: Dims := Zero();
    var pending := value.Keys;
    var nonzero := false;
    while pending != {}
      invariant pending <= value.Keys
      invariant forall name | name in value && name !in pending :: InRange(name, value[name])
      invariant forall i | 0 <= i < COUNT ::
                  normalized[i] == if NAMES[i] in value && NAMES[i] !in pending then value[NAMES[i]] else 0
      invariant nonzero <==> exists name | name in value :: name !in pending && value[name] != 0
      decreases pending
    {
      var name :| name in pending;
      pending := pending - {name};
      var amount := value[name];
      if !InRange(name, amount) {
        assert !Acceptable(value, requireNonzero);
        return Err(refusal);
      }
      var i := IndexOfName(name);
      normalized := normalized[i := amount];
      nonzero := nonzero || amount != 0;
    }
    if requireNonzero && !nonzero {
      return Err(refusal);
    }
    assert normalized == Padded(value);
    return Ok(normalized);
  }

  method IndexOfName(name: string) returns (i: nat)
    requires name in NAMES
    ensures i < COUNT && forall j | 0 <= j < COUNT :: NAMES[j] == name <==> j == i
  {
    i := 0;
    while NAMES[i] != name
      invariant i < COUNT
      invariant forall j | 0 <= j < i :: NAMES[j] != name
      invariant name in NAMES[i..]
      decreases COUNT - i
    {
      assert NAMES[i..] == [NAMES[i]] + NAMES[i + 1..];
      i := i + 1;
    }
    forall j | i < j < COUNT ensures NAMES[j] != name {
      NamesAreDistinct(i, j);
    }
  }
}
