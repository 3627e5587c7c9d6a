/** The bounded telemetry buffer: two bounds at once, two priorities that may be evicted, and audit
    records that may not. */
module TelemetryBuffers {
  import opened Results

  datatype Priority = Low | Normal | Audit

  /** `size` is the length of the encoded record. */
  datatype Telemetry = Telemetry(
    recordId: string, organizationId: string, priority: Priority, auditRequired: bool, size: nat, recordedAt: int)

  /** No encoded record is shorter: twelve keys and the schema string, with every free text empty. */
  const MINIMUM_SIZE: nat := 277

  /** Admission lets a record through only if its priority is audit exactly when audit is required. */
  predicate Admitted(r: Telemetry) {
    (r.priority == Audit <==> r.auditRequired) && r.size >= MINIMUM_SIZE
  }

  type Record = r: Telemetry | Admitted(r) witness Telemetry("", "", Low, false, MINIMUM_SIZE, 0)

  datatype Limits = Limits(records: int, bytes: int, ageSeconds: int)

  predicate LimitsOk(limits: Limits) {
    && 1 <= limits.records <= 100_000
    && 1024 <= limits.bytes <= 1_073_741_824
    && 1 <= limits.ageSeconds <= 86_400
  }

  /** `Saturated` is the exception raised for an audit record that cannot be kept. */
  datatype Reply = Buffered | Dropped | Saturated

  function Total(rs: seq<Record>): nat {
    if rs == [] then 0 else Total(rs[..|rs| - 1]) + rs[|rs| - 1].size
  }

  predicate Outlived(r: Record, limits: Limits, now: int) {
    !r.auditRequired && r.recordedAt < now - limits.ageSeconds
  }

  function Unexpired(rs: seq<Record>, limits: Limits, now: int): seq<Record> {
    if rs == [] then []
    else
      var last, earlier := rs[|rs| - 1], Unexpired(rs[..|rs| - 1], limits, now);
      if Outlived(last, limits, now) then earlier else earlier + [last]
  }

  predicate Fits(rs: seq<Record>, size: nat, limits: Limits) {
    |rs| + 1 <= limits.records && Total(rs) + size <= limits.bytes
  }

  /* ---------- What an append leaves, declared ---------- */

  function Count(rs: seq<Record>, priority: Priority): nat {
    if rs == [] then 0 else Count(rs[1..], priority) + if rs[0].priority == priority then 1 else 0
  }

  /** Without the first `n` records of one priority. */
  function DropFirst(rs: seq<Record>, priority: Priority, n: nat): seq<Record> {
    if rs == [] || n == 0 then rs
    else if rs[0].priority == priority then DropFirst(rs[1..], priority, n - 1)
    else [rs[0]] + DropFirst(rs[1..], priority, n)
  }

  /** Without the first `n` records of: the low ones in arrival order, then the normal ones. */
  function Survivors(rs: seq<Record>, n: nat): seq<Record> {
    var lows := Count(rs, Low);
    if n <= lows then DropFirst(rs, Low, n) else DropFirst(DropFirst(rs, Low, lows), Normal, n - lows)
  }

  function Droppable(rs: seq<Record>): nat {
    Count(rs, Low) + Count(rs, Normal)
  }

  /** The least number of evictions, from `n` on, that makes room, or all that are possible. */
  function EvictionsFrom(rs: seq<Record>, size: nat, limits: Limits, n: nat): (e: nat)
    requires n <= Droppable(rs)
    ensures n <= e <= Droppable(rs)
    ensures forall m | n <= m < e :: !Fits(Survivors(rs, m), size, limits)
    ensures e == Droppable(rs) || Fits(Survivors(rs, e), size, limits)
    decreases Droppable(rs) - n
  {
    if n == Droppable(rs) || Fits(Survivors(rs, n), size, limits) then n else EvictionsFrom(rs, size, limits, n + 1)
  }

  function Kept(rs: seq<Record>, size: nat, limits: Limits): seq<Record> {
    Survivors(rs, EvictionsFrom(rs, size, limits, 0))
  }

  function Appended(rs: seq<Record>, record: Record, limits: Limits, now: int): (seq<Record>, Reply) {
    var refusal := if record.auditRequired then Saturated else Dropped;
    if record.size > limits.bytes then (rs, refusal)
    else
      var kept := Kept(Unexpired(rs, limits, now), record.size, limits);
      if Fits(kept, record.size, limits) then (kept + [record], Buffered) else (kept, refusal)
  }

  /* ---------- Dropping one at a time ---------- */

  predicate HasFirst(rs: seq<Record>, priority: Priority, i: nat) {
    && i < |rs|
    && rs[i].priority == priority
    && forall j | 0 <= j < i :: rs[j].priority != priority
  }

  function Without(rs: seq<Record>, i: nat): (r: seq<Record>)
    requires i < |rs|
    ensures |r| == |rs| - 1
  {
    rs[..i] + rs[i + 1..]
  }

  lemma {:induction false} NoneLeft(rs: seq<Record>, priority: Priority)
    requires forall i | 0 <= i < |rs| :: rs[i].priority != priority
    ensures Count(rs, priority) == 0
  {
    if rs != [] {
      NoneLeft(rs[1..], priority);
    }
  }

  lemma {:induction false} CountedIsThere(rs: seq<Record>, priority: Priority, i: nat)
    requires i < |rs| && rs[i].priority == priority
    ensures Count(rs, priority) > 0
  {
    if i > 0 {
      CountedIsThere(rs[1..], priority, i - 1);
    }
  }

  lemma {:induction false} CountAfterDrop(rs: seq<Record>, priority: Priority, n: nat, other: Priority)
    requires n <= Count(rs, priority)
    ensures Count(DropFirst(rs, priority, n), other) == Count(rs, other) - if other == priority then n else 0
  {
    if rs != [] && n > 0 {
      if rs[0].priority == priority {
        CountAfterDrop(rs[1..], priority, n - 1, other);
      } else {
        CountAfterDrop(rs[1..], priority, n, other);
        var rest := DropFirst(rs[1..], priority, n);
        assert ([rs[0]] + rest)[1..] == rest;
      }
    }
  }

  lemma DropNone(rs: seq<Record>, priority: Priority)
    ensures DropFirst(rs, priority, 0) == rs
  {
  }

  lemma WithoutLater(x: Record, rest: seq<Record>, i: nat)
    requires i < |rest|
    ensures Without([x] + rest, i + 1) == [x] + Without(rest, i)
  {
  }

  lemma {:induction false} DropTheFirst(rs: seq<Record>, priority: Priority, i: nat)
    requires HasFirst(rs, priority, i)
    ensures Without(rs, i) == DropFirst(rs, priority, 1)
  {
    if i == 0 {
      DropNone(rs[1..], priority);
      assert Without(rs, 0) == rs[1..];
    } else {
      DropTheFirst(rs[1..], priority, i - 1);
      WithoutLater(rs[0], rs[1..], i - 1);
      assert rs == [rs[0]] + rs[1..];
    }
  }

  /** Removing the first remaining record of the priority is dropping one more. */
  lemma {:induction false} DropOneMore(rs: seq<Record>, priority: Priority, n: nat, i: nat)
    requires HasFirst(DropFirst(rs, priority, n), priority, i)
    ensures Without(DropFirst(rs, priority, n), i) == DropFirst(rs, priority, n + 1)
  {
    hide Without;
    if n == 0 {
      DropTheFirst(rs, priority, i);
    } else if rs != [] {
      if rs[0].priority == priority {
        DropOneMore(rs[1..], priority, n - 1, i);
      } else {
        var rest := DropFirst(rs[1..], priority, n);
        assert forall j | 0 <= j < |rest| :: rest[j] == ([rs[0]] + rest)[j + 1];
        DropOneMore(rs[1..], priority, n, i - 1);
        WithoutLater(rs[0], rest, i - 1);
      }
    }
  }

  lemma DroppedCounts(rs: seq<Record>, n: nat)
    requires n <= Droppable(rs)
    ensures Count(Survivors(rs, n), Low) == if n <= Count(rs, Low) then Count(rs, Low) - n else 0
    ensures Count(Survivors(rs, n), Normal) == if n <= Count(rs, Low) then Count(rs, Normal) else Droppable(rs) - n
  {
    var lows := Count(rs, Low);
    CountAfterDrop(rs, Low, if n <= lows then n else lows, Low);
    CountAfterDrop(rs, Low, if n <= lows then n else lows, Normal);
    if lows < n {
      CountAfterDrop(DropFirst(rs, Low, lows), Normal, n - lows, Low);
      CountAfterDrop(DropFirst(rs, Low, lows), Normal, n - lows, Normal);
    }
  }

  /** The candidate for eviction is the next one in line. */
  lemma NextEviction(rs: seq<Record>, n: nat, priority: Priority, i: nat)
    requires n <= Droppable(rs)
    requires priority == Low || (priority == Normal && Count(Survivors(rs, n), Low) == 0)
    requires HasFirst(Survivors(rs, n), priority, i)
    ensures n < Droppable(rs) && Without(Survivors(rs, n), i) == Survivors(rs, n + 1)
  {
    hide DropFirst;
    var lows := Count(rs, Low);
    DroppedCounts(rs, n);
    CountedIsThere(Survivors(rs, n), priority, i);
    if priority == Low {
      DropOneMore(rs, Low, n, i);
    } else {
      DropNone(DropFirst(rs, Low, lows), Normal);
      DropOneMore(DropFirst(rs, Low, lows), Normal, n - lows, i);
    }
  }

  lemma TotalAppended(rs: seq<Record>, r: Record)
    ensures Total(rs + [r]) == Total(rs) + r.size
  {
    assert (rs + [r])[..|rs|] == rs;
  }

  lemma {:induction false} TotalWithout(rs: seq<Record>, i: nat)
    requires i < |rs|
    ensures Total(Without(rs, i)) == Total(rs) - rs[i].size
  {
    var init := rs[..|rs| - 1];
    if i < |init| {
      TotalWithout(init, i);
      assert Without(rs, i)[..|rs| - 2] == Without(init, i);
    } else {
      assert Without(rs, i) == init;
    }
  }

  /* ---------- The buffer object ---------- */

  class TelemetryBuffer {
    const limits: Limits
    var records: seq<Record>
    var bytes: nat
    var auditSaturated: bool

    /** The byte counter is the true sum, and both bounds hold. */
    ghost predicate Valid()
      reads this
    {
      LimitsOk(limits) && bytes == Total(records) && |records| <= limits.records && bytes <= limits.bytes
    }

    constructor (limits: Limits)
      requires LimitsOk(limits)
      ensures Valid() && this.limits == limits && records == [] && !auditSaturated
    {
      this.limits := limits;
      records, bytes, auditSaturated := [], 0, false;
    }

    method Append(record: Record, now: int) returns (reply: Reply)
      requires Valid()
      modifies this
      ensures Valid()
      ensures (records, reply) == Appended(old(records), record, limits, now)
      ensures auditSaturated == (old(auditSaturated) || reply == Saturated)
    {
      if record.size > limits.bytes {
        if record.auditRequired {
          auditSaturated := true;
          return Saturated;
        }
        return Dropped;
      }
      ExpireNonAudit(now);
      var room := MakeRoom(record.size);
      if !room {
        if record.auditRequired {
          auditSaturated := true;
          return Saturated;
        }
        return Dropped;
      }
      TotalAppended(records, record);
      records := records + [record];
      bytes := bytes + record.size;
      return Buffered;
    }

    method ExpireNonAudit(now: int)
      requires Valid()
      modifies this`records, this`bytes
      ensures Valid() && records == Unexpired(old(records), limits, now)
    {
      var cutoff := now - limits.ageSeconds;
      var retained: seq<Record>, total := [], 0;
      for i := 0 to |records|
        invariant retained == Unexpired(records[..i], limits, now) && total == Total(retained)
        invariant |retained| <= i && total <= Total(records[..i])
      {
        assert records[..i + 1][..i] == records[..i];
        if records[i].auditRequired || records[i].recordedAt >= cutoff {
          retained := retained + [records[i]];
          total := total + records[i].size;
          assert retained[..|retained| - 1] == Unexpired(records[..i], limits, now);
        }
      }
      assert records[..|records|] == records;
      records := retained;
      bytes := total;
    }

    /** The eviction loop: stops when the record fits or nothing may be evicted. */
    method MakeRoom(size: nat) returns (room: bool)
      requires Valid()
      modifies this`records, this`bytes
      ensures Valid()
      ensures records == Kept(old(records), size, limits)
      ensures room == Fits(records, size, limits)
    {
      hide DropFirst, Count, Without;
      ghost var n := 0;
      DropNone(records, Low);
      while |records| + 1 > limits.records || bytes + size > limits.bytes
        invariant Valid()
        invariant n <= Droppable(old(records)) && records == Survivors(old(records), n)
        invariant forall m | 0 <= m < n :: !Fits(Survivors(old(records), m), size, limits)
        decreases |records|
      {
        var candidate := DropCandidate();
        if candidate.None? {
          DroppedCounts(old(records), n);
          return false;
        }
        var i := candidate.value;
        NextEviction(old(records), n, records[i].priority, i);
        TotalWithout(records, i);
        bytes := bytes - records[i].size;
        records := Without(records, i);
        n := n + 1;
      }
      return true;
    }

    /** The first low record, or else the first normal one. */
    method DropCandidate() returns (candidate: Option<nat>)
      ensures candidate.Some? ==>
                var i := candidate.value;
                i < |records| && HasFirst(records, records[i].priority, i) &&
                (records[i].priority == Low || (records[i].priority == Normal && Count(records, Low) == 0))
      ensures candidate.None? ==> Count(records, Low) == 0 && Count(records, Normal) == 0
    {
      candidate := FirstOf(Low);
      if candidate.None? {
        NoneLeft(records, Low);
        candidate := FirstOf(Normal);
        if candidate.None? {
          NoneLeft(records, Normal);
        }
      }
    }

    method FirstOf(priority: Priority) returns (candidate: Option<nat>)
      requires priority != Audit
      ensures candidate.Some? ==> HasFirst(records, priority, candidate.value)
      ensures candidate.None? ==> forall i | 0 <= i < |records| :: records[i].priority != priority
    {
      for i := 0 to |records|
        invariant forall j | 0 <= j < i :: records[j].priority != priority
      {
        if !records[i].auditRequired && records[i].priority == priority {
          return Some(i);
        }
      }
      return None;
    }
  }

  /** The constructor refuses limits outside the agreed ranges. */
  method MakeBuffer(records: int, bytes: int, ageSeconds: int) returns (buffer: Option<TelemetryBuffer>)
    ensures buffer.Some? <==> 1 <= records <= 100_000 && 1024 <= bytes <= 1_073_741_824 && 1 <= ageSeconds <= 86_400
    ensures buffer.Some? ==> fresh(buffer.value) && buffer.value.Valid() && buffer.value.records == []
    ensures buffer.Some? ==> buffer.value.limits == Limits(records, bytes, ageSeconds)
  {
    if !LimitsOk(Limits(records, bytes, ageSeconds)) {
      return None;
    }
    var made := new TelemetryBuffer(Limits(records, bytes, ageSeconds));
    return Some(made);
  }
}
