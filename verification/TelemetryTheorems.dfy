/** What the buffer's eviction amounts to, and what holds of it over whole runs. */
module TelemetryTheorems {
  import opened TelemetryBuffers

  /** The records of one priority, in arrival order. */
  function Of(rs: seq<Record>, priority: Priority): seq<Record> {
    if rs == [] then []
    else if rs[0].priority == priority then [rs[0]] + Of(rs[1..], priority)
    else Of(rs[1..], priority)
  }

  /* ---------- Eviction, priority by priority ---------- */

  lemma {:induction false} CountIsLength(rs: seq<Record>, priority: Priority)
    ensures Count(rs, priority) == |Of(rs, priority)|
  {
    if rs != [] {
      CountIsLength(rs[1..], priority);
    }
  }

  lemma {:induction false} DropTakesThePrefix(rs: seq<Record>, priority: Priority, n: nat, other: Priority)
    requires n <= |Of(rs, priority)|
    ensures Of(DropFirst(rs, priority, n), other) == if other == priority then Of(rs, other)[n..] else Of(rs, other)
  {
    if rs != [] && n > 0 {
      if rs[0].priority == priority {
        DropTakesThePrefix(rs[1..], priority, n - 1, other);
      } else {
        DropTakesThePrefix(rs[1..], priority, n, other);
        var rest := DropFirst(rs[1..], priority, n);
        assert ([rs[0]] + rest)[1..] == rest;
      }
    }
  }

  lemma LowsGoFirst(rs: seq<Record>, n: nat)
    requires n <= |Of(rs, Low)|
    ensures Of(DropFirst(rs, Low, n), Low) == Of(rs, Low)[n..]
    ensures Of(DropFirst(rs, Low, n), Normal) == Of(rs, Normal)
    ensures Of(DropFirst(rs, Low, n), Audit) == Of(rs, Audit)
  {
    hide DropFirst, Of;
    DropTakesThePrefix(rs, Low, n, Low);
    DropTakesThePrefix(rs, Low, n, Normal);
    DropTakesThePrefix(rs, Low, n, Audit);
  }

  lemma ThenNormals(rs: seq<Record>, n: nat)
    requires Of(rs, Low) == [] && n <= |Of(rs, Normal)|
    ensures Of(DropFirst(rs, Normal, n), Low) == []
    ensures Of(DropFirst(rs, Normal, n), Normal) == Of(rs, Normal)[n..]
    ensures Of(DropFirst(rs, Normal, n), Audit) == Of(rs, Audit)
  {
    hide DropFirst, Of;
    DropTakesThePrefix(rs, Normal, n, Low);
    DropTakesThePrefix(rs, Normal, n, Normal);
    DropTakesThePrefix(rs, Normal, n, Audit);
  }

  /** Evicting `n` records takes the first `n` low ones in arrival order, then, when those are used
      up, the first normal ones, and never an audit record. */
  lemma EvictionByPriority(rs: seq<Record>, n: nat)
    requires n <= Droppable(rs)
    ensures var lows := |Of(rs, Low)|;
            if n <= lows then
              && Of(Survivors(rs, n), Low) == Of(rs, Low)[n..]
              && Of(Survivors(rs, n), Normal) == Of(rs, Normal)
            else
              && Of(Survivors(rs, n), Low) == []
              && n - lows <= |Of(rs, Normal)|
              && Of(Survivors(rs, n), Normal) == Of(rs, Normal)[n - lows..]
    ensures Of(Survivors(rs, n), Audit) == Of(rs, Audit)
  {
    hide DropFirst, Of;
    CountIsLength(rs, Low);
    CountIsLength(rs, Normal);
    var lows := Count(rs, Low);
    if n <= lows {
      LowsGoFirst(rs, n);
    } else {
      LowsGoFirst(rs, lows);
      ThenNormals(DropFirst(rs, Low, lows), n - lows);
    }
  }

  lemma {:induction false} OnlyAuditLeft(rs: seq<Record>)
    requires Of(rs, Low) == [] && Of(rs, Normal) == []
    ensures Of(rs, Audit) == rs
  {
    if rs != [] {
      OnlyAuditLeft(rs[1..]);
    }
  }

  /** The append evicts exactly as many records as it must: fewer would not make room. If even all
      of them do not, only the audit records remain and the newcomer is not added. */
  lemma EvictionIsExact(rs: seq<Record>, size: nat, limits: Limits) returns (n: nat)
    ensures n <= Droppable(rs) && Kept(rs, size, limits) == Survivors(rs, n)
    ensures forall m | 0 <= m < n :: !Fits(Survivors(rs, m), size, limits)
    ensures !Fits(Kept(rs, size, limits), size, limits) ==>
              n == Droppable(rs) && Kept(rs, size, limits) == Of(rs, Audit)
  {
    n := EvictionsFrom(rs, size, limits, 0);
    if !Fits(Kept(rs, size, limits), size, limits) {
      EvictionByPriority(rs, n);
      CountIsLength(rs, Low);
      CountIsLength(rs, Normal);
      OnlyAuditLeft(Survivors(rs, n));
    }
  }

  /* ---------- Audit records ---------- */

  lemma OfFirst(x: Record, rest: seq<Record>, priority: Priority)
    ensures Of([x] + rest, priority) == (if x.priority == priority then [x] else []) + Of(rest, priority)
  {
    assert ([x] + rest)[1..] == rest;
  }

  lemma {:induction false} OfAppended(rs: seq<Record>, r: Record, priority: Priority)
    ensures Of(rs + [r], priority) == Of(rs, priority) + if r.priority == priority then [r] else []
  {
    hide Of;
    NothingOf(priority);
    if rs == [] {
      assert [] + [r] == [r] + [];
      OfFirst(r, [], priority);
    } else {
      OfAppended(rs[1..], r, priority);
      OfFirst(rs[0], rs[1..] + [r], priority);
      OfFirst(rs[0], rs[1..], priority);
      assert rs == [rs[0]] + rs[1..];
      assert rs + [r] == [rs[0]] + (rs[1..] + [r]);
    }
  }

  /** Age expiry takes no audit record. */
  lemma {:induction false} ExpiryKeepsAudit(rs: seq<Record>, limits: Limits, now: int)
    ensures Of(Unexpired(rs, limits, now), Audit) == Of(rs, Audit)
  {
    if rs != [] {
      var init, last := rs[..|rs| - 1], rs[|rs| - 1];
      assert rs == init + [last];
      ExpiryKeepsAudit(init, limits, now);
      OfAppended(init, last, Audit);
      OfAppended(Unexpired(init, limits, now), last, Audit);
    }
  }

  lemma AppendKeepsAudit(rs: seq<Record>, record: Record, limits: Limits, now: int)
    ensures var (rs', reply) := Appended(rs, record, limits, now);
            Of(rs', Audit) ==
            if reply == Buffered && record.auditRequired then Of(rs, Audit) + [record] else Of(rs, Audit)
  {
    hide Of, Unexpired, Kept, Fits;
    if record.size <= limits.bytes {
      var unexpired := Unexpired(rs, limits, now);
      ExpiryKeepsAudit(rs, limits, now);
      var n := EvictionIsExact(unexpired, record.size, limits);
      EvictionByPriority(unexpired, n);
      OfAppended(Kept(unexpired, record.size, limits), record, Audit);
    }
  }

  /* ---------- Runs ---------- */

  datatype Event = Append(record: Record, now: int)

  function Run(es: seq<Event>, limits: Limits): seq<Record> {
    if es == [] then []
    else Appended(Run(es[..|es| - 1], limits), es[|es| - 1].record, limits, es[|es| - 1].now).0
  }

  /** The audit records that the buffer accepted, in order. */
  function AcceptedAudits(es: seq<Event>, limits: Limits): seq<Record> {
    if es == [] then []
    else
      var init, e := es[..|es| - 1], es[|es| - 1];
      var accepted := AcceptedAudits(init, limits);
      if e.record.auditRequired && Appended(Run(init, limits), e.record, limits, e.now).1 == Buffered
      then accepted + [e.record]
      else accepted
  }

  /** Over any run the buffer holds every audit record it ever accepted, in order: none is lost to
      age or to pressure. */
  lemma {:induction false} AuditIsNeverLost(es: seq<Event>, limits: Limits)
    ensures Of(Run(es, limits), Audit) == AcceptedAudits(es, limits)
  {
    hide Of, Appended;
    if es != [] {
      var init, e := es[..|es| - 1], es[|es| - 1];
      AuditIsNeverLost(init, limits);
      AppendKeepsAudit(Run(init, limits), e.record, limits, e.now);
    } else {
      NothingOf(Audit);
    }
  }

  lemma NothingOf(priority: Priority)
    ensures Of([], priority) == []
  {
  }

  lemma {:induction false} FewerFit(rs: seq<Record>, limits: Limits, now: int)
    ensures |Unexpired(rs, limits, now)| <= |rs| && Total(Unexpired(rs, limits, now)) <= Total(rs)
  {
    if rs != [] {
      FewerFit(rs[..|rs| - 1], limits, now);
      TotalAppended(Unexpired(rs[..|rs| - 1], limits, now), rs[|rs| - 1]);
    }
  }

  lemma {:induction false} DropIsSmaller(rs: seq<Record>, priority: Priority, n: nat)
    ensures |DropFirst(rs, priority, n)| <= |rs| && Total(DropFirst(rs, priority, n)) <= Total(rs)
  {
    if rs != [] && n > 0 {
      TotalOfFirst(rs);
      if rs[0].priority == priority {
        DropIsSmaller(rs[1..], priority, n - 1);
      } else {
        DropIsSmaller(rs[1..], priority, n);
        TotalOfFirst([rs[0]] + DropFirst(rs[1..], priority, n));
        assert ([rs[0]] + DropFirst(rs[1..], priority, n))[1..] == DropFirst(rs[1..], priority, n);
      }
    }
  }

  lemma {:induction false} TotalOfFirst(rs: seq<Record>)
    requires rs != []
    ensures Total(rs) == rs[0].size + Total(rs[1..])
  {
    var init := rs[..|rs| - 1];
    if init != [] {
      TotalOfFirst(init);
      assert rs[1..][..|rs| - 2] == init[1..];
    } else {
      assert rs == [rs[0]] && rs[1..] == [];
    }
  }

  /** Both bounds hold after every run. */
  lemma {:induction false} BoundsHold(es: seq<Event>, limits: Limits)
    requires LimitsOk(limits)
    ensures |Run(es, limits)| <= limits.records && Total(Run(es, limits)) <= limits.bytes
  {
    if es != [] {
      hide Unexpired, DropFirst;
      var init, e := es[..|es| - 1], es[|es| - 1];
      BoundsHold(init, limits);
      if e.record.size <= limits.bytes {
        var unexpired := Unexpired(Run(init, limits), limits, e.now);
        FewerFit(Run(init, limits), limits, e.now);
        var kept := Kept(unexpired, e.record.size, limits);
        SurvivorsAreFewer(unexpired, EvictionsFrom(unexpired, e.record.size, limits, 0));
        TotalAppended(kept, e.record);
      }
    }
  }

  lemma SurvivorsAreFewer(rs: seq<Record>, n: nat)
    ensures |Survivors(rs, n)| <= |rs| && Total(Survivors(rs, n)) <= Total(rs)
  {
    var lows := Count(rs, Low);
    DropIsSmaller(rs, Low, n);
    DropIsSmaller(rs, Low, lows);
    if lows < n {
      DropIsSmaller(DropFirst(rs, Low, lows), Normal, n - lows);
    }
  }

  /* ---------- A refused append may still evict ---------- */

  lemma {:induction false} AllAudit(rs: seq<Record>)
    ensures Of(rs, Audit) == rs <==> forall i | 0 <= i < |rs| :: rs[i].auditRequired
  {
    if rs != [] {
      AllAudit(rs[1..]);
      OfIsShorter(rs[1..], Audit);
      if Of(rs, Audit) == rs {
        assert rs[0].auditRequired;
        assert Of(rs[1..], Audit) == rs[1..];
        forall i | 0 <= i < |rs| ensures rs[i].auditRequired {
          assert i == 0 || rs[i] == rs[1..][i - 1];
        }
      }
    }
  }

  lemma {:induction false} OfIsShorter(rs: seq<Record>, priority: Priority)
    ensures |Of(rs, priority)| <= |rs|
  {
    if rs != [] {
      OfIsShorter(rs[1..], priority);
    }
  }

  /** An append that is refused leaves the buffer as it was exactly when the record could not fit
      even an empty buffer, or when nothing but audit records is buffered. */
  lemma RefusedChangesNothingExactly(rs: seq<Record>, record: Record, limits: Limits, now: int)
    requires Appended(rs, record, limits, now).1 != Buffered
    ensures Appended(rs, record, limits, now).0 == rs <==>
              record.size > limits.bytes || forall i | 0 <= i < |rs| :: rs[i].auditRequired
  {
    hide Of, Unexpired, Kept, Fits;
    if record.size <= limits.bytes {
      var unexpired := Unexpired(rs, limits, now);
      var n := EvictionIsExact(unexpired, record.size, limits);
      ExpiryKeepsAudit(rs, limits, now);
      AllAudit(rs);
    }
  }

  lemma RunAppended(es: seq<Event>, record: Record, now: int, limits: Limits)
    ensures Run(es + [Append(record, now)], limits) == Appended(Run(es, limits), record, limits, now).0
  {
    assert (es + [Append(record, now)])[..|es|] == es;
  }

  /** A record that fits and finds nothing expired is simply added. */
  lemma FittingIsAdded(rs: seq<Record>, record: Record, limits: Limits, now: int)
    requires Unexpired(rs, limits, now) == rs && Fits(rs, record.size, limits) && record.size <= limits.bytes
    ensures Appended(rs, record, limits, now).0 == rs + [record]
  {
    DropNone(rs, Low);
  }

  lemma BothAreBuffered(low: Record, audit: Record, limits: Limits)
    requires limits.records >= 2 && low.size + audit.size <= limits.bytes
    requires low.recordedAt == 0 && limits.ageSeconds >= 1
    ensures Run([Append(low, 0)] + [Append(audit, 0)], limits) == [low, audit]
  {
    assert [] + [Append(low, 0)] == [Append(low, 0)] && [] + [low] == [low] && [low] + [audit] == [low, audit];
    TotalAppended([], low);
    FittingIsAdded([], low, limits, 0);
    RunAppended([], low, 0, limits);
    assert [low][..0] == [] && Unexpired([low][..0], limits, 0) == [];
    FittingIsAdded([low], audit, limits, 0);
    RunAppended([Append(low, 0)], audit, 0, limits);
  }

  /** A newcomer for which evicting the low record is not enough. */
  lemma EvictingIsNotEnough(low: Record, audit: Record, record: Record, limits: Limits, now: int)
    requires low.priority == Low && audit.priority == Audit && record.priority == Normal
    requires record.size <= limits.bytes < audit.size + record.size
    ensures Appended([low, audit], record, limits, now).1 == Dropped
    ensures Appended([low, audit], record, limits, now).0 != [low, audit]
  {
    hide Of, Unexpired, Kept, Survivors;
    var rs := [low, audit];
    assert rs == [low] + [audit];
    var unexpired := Unexpired(rs, limits, now);
    var kept := Kept(unexpired, record.size, limits);
    OfAppended([low], audit, Audit);
    OfAppended([], low, Audit);
    NothingOf(Audit);
    assert [] + [low] == [low];
    ExpiryKeepsAudit(rs, limits, now);
    var n := EvictionIsExact(unexpired, record.size, limits);
    EvictionByPriority(unexpired, n);
    OfIsLighter(kept, Audit);
    TotalAppended([], audit);
    assert [] + [audit] == [audit];
    RefusedChangesNothingExactly(rs, record, limits, now);
    assert !rs[0].auditRequired;
  }

  /** A case in which a dropped newcomer costs a buffered record, in a buffer that a run reaches. */
  lemma DroppedButEvicting() returns (es: seq<Event>, record: Record, limits: Limits)
    ensures LimitsOk(limits)
    ensures Appended(Run(es, limits), record, limits, 0).1 == Dropped
    ensures Appended(Run(es, limits), record, limits, 0).0 != Run(es, limits)
  {
    hide Run, Appended;
    limits := Limits(10, 2048, 60);
    var low, audit := Telemetry("a", "o", Low, false, 500, 0), Telemetry("b", "o", Audit, true, 1500, 0);
    es, record := [Append(low, 0)] + [Append(audit, 0)], Telemetry("c", "o", Normal, false, 600, 0);
    BothAreBuffered(low, audit, limits);
    EvictingIsNotEnough(low, audit, record, limits, 0);
  }

  lemma {:induction false} OfIsLighter(rs: seq<Record>, priority: Priority)
    ensures Total(Of(rs, priority)) <= Total(rs)
  {
    if rs != [] {
      OfIsLighter(rs[1..], priority);
      TotalOfFirst(rs);
      if rs[0].priority == priority {
        TotalOfFirst(Of(rs, priority));
        assert Of(rs, priority)[1..] == Of(rs[1..], priority);
      }
    }
  }

  /* ---------- What an append leaves, exactly ---------- */

  /** The records, in order, that age expiry spares: audit ones, and those recorded within the last
      `ageSeconds`. */
  function Young(rs: seq<Record>, limits: Limits, now: int): seq<Record> {
    if rs == [] then []
    else
      var last := rs[|rs| - 1];
      Young(rs[..|rs| - 1], limits, now) +
      if last.auditRequired || now - last.recordedAt <= limits.ageSeconds then [last] else []
  }

  function Sizes(rs: seq<Record>): nat {
    if rs == [] then 0 else rs[0].size + Sizes(rs[1..])
  }

  /** One record more of that size stays within both bounds. */
  predicate LeavesRoom(rs: seq<Record>, size: nat, limits: Limits) {
    |rs| < limits.records && Sizes(rs) + size <= limits.bytes
  }

  /** Without the first `low` low records and the first `normal` normal ones, all others in order. */
  function Spare(rs: seq<Record>, low: nat, normal: nat): seq<Record> {
    if rs == [] then []
    else if rs[0].priority == Low && low > 0 then Spare(rs[1..], low - 1, normal)
    else if rs[0].priority == Normal && normal > 0 then Spare(rs[1..], low, normal - 1)
    else [rs[0]] + Spare(rs[1..], low, normal)
  }

  /** After `n` evictions: low records go first, in arrival order, and normal ones once no low one is
      left. */
  function Evicted(rs: seq<Record>, n: nat): seq<Record> {
    var lows := |Of(rs, Low)|;
    if n <= lows then Spare(rs, n, 0) else Spare(rs, lows, n - lows)
  }

  lemma {:induction false} UnexpiredIsYoung(rs: seq<Record>, limits: Limits, now: int)
    ensures Unexpired(rs, limits, now) == Young(rs, limits, now)
  {
    if rs != [] {
      UnexpiredIsYoung(rs[..|rs| - 1], limits, now);
    }
  }

  lemma {:induction false} TotalIsSizes(rs: seq<Record>)
    ensures Total(rs) == Sizes(rs)
  {
    if rs != [] {
      TotalOfFirst(rs);
      TotalIsSizes(rs[1..]);
    }
  }

  lemma FitsIsRoom(rs: seq<Record>, size: nat, limits: Limits)
    ensures Fits(rs, size, limits) <==> LeavesRoom(rs, size, limits)
  {
    TotalIsSizes(rs);
  }

  lemma {:induction false} DroppingSpares(rs: seq<Record>, low: nat, normal: nat)
    ensures DropFirst(DropFirst(rs, Low, low), Normal, normal) == Spare(rs, low, normal)
  {
    if rs != [] {
      if rs[0].priority == Low && low > 0 {
        DroppingSpares(rs[1..], low - 1, normal);
      } else if rs[0].priority == Normal && normal > 0 {
        DroppingSpares(rs[1..], low, normal - 1);
        DropsBehind(rs, Low, low);
      } else {
        DroppingSpares(rs[1..], low, normal);
        DropsBehind(rs, Low, low);
        DropsBehind([rs[0]] + DropFirst(rs[1..], Low, low), Normal, normal);
      }
    }
  }

  /** A record that is not to be dropped stays in front. */
  lemma DropsBehind(rs: seq<Record>, priority: Priority, n: nat)
    requires rs != [] && (rs[0].priority != priority || n == 0)
    ensures DropFirst(rs, priority, n) == [rs[0]] + DropFirst(rs[1..], priority, n)
  {
    DropNone(rs[1..], priority);
  }

  lemma SurvivorsAreSpared(rs: seq<Record>, n: nat)
    ensures Survivors(rs, n) == Evicted(rs, n)
  {
    var lows := |Of(rs, Low)|;
    CountIsLength(rs, Low);
    if n <= lows {
      DroppingSpares(rs, n, 0);
      DropNone(DropFirst(rs, Low, n), Normal);
    } else {
      DroppingSpares(rs, lows, n - lows);
    }
  }

  /** What an append leaves, and what it answers, for every buffer and every record: the young records
      without the least number of evictions that makes room, followed by the newcomer; or, when no
      number of evictions does, the young audit records alone. A record that is larger than the whole
      buffer changes nothing. */
  lemma AppendIsExact(rs: seq<Record>, record: Record, limits: Limits, now: int) returns (n: nat)
    ensures var (rs', reply) := Appended(rs, record, limits, now);
            var refusal := if record.auditRequired then Saturated else Dropped;
            var young := Young(rs, limits, now);
            && n <= |Of(young, Low)| + |Of(young, Normal)|
            && if record.size > limits.bytes then rs' == rs && reply == refusal
               else
                 && (forall m | 0 <= m < n :: !LeavesRoom(Evicted(young, m), record.size, limits))
                 && if LeavesRoom(Evicted(young, n), record.size, limits)
                    then reply == Buffered && rs' == Evicted(young, n) + [record]
                    else reply == refusal && rs' == Of(young, Audit)
  {
    hide Of, Unexpired, Survivors, Evicted, Kept, Fits, LeavesRoom;
    var young := Young(rs, limits, now);
    UnexpiredIsYoung(rs, limits, now);
    CountIsLength(young, Low);
    CountIsLength(young, Normal);
    n := EvictionIsExact(young, record.size, limits);
    forall m: nat ensures Survivors(young, m) == Evicted(young, m)
      ensures Fits(Survivors(young, m), record.size, limits) <==> LeavesRoom(Evicted(young, m), record.size, limits)
    {
      SurvivorsAreSpared(young, m);
      FitsIsRoom(Survivors(young, m), record.size, limits);
    }
  }

  lemma {:induction false} NoneIsSpared(rs: seq<Record>)
    ensures Spare(rs, 0, 0) == rs
  {
    if rs != [] {
      NoneIsSpared(rs[1..]);
    }
  }

  /** As long as the young records leave room for the newcomer, an append takes only what is too old:
      it leaves exactly the audit records and those recorded within the age limit, in order, followed
      by the newcomer. */
  lemma OnlyTheOldGo(rs: seq<Record>, record: Record, limits: Limits, now: int)
    requires LeavesRoom(Young(rs, limits, now), record.size, limits)
    ensures Appended(rs, record, limits, now) == (Young(rs, limits, now) + [record], Buffered)
  {
    hide Appended, Young, LeavesRoom, Of;
    var young := Young(rs, limits, now);
    RoomIsWithinBytes(young, record.size, limits);
    var n := AppendIsExact(rs, record, limits, now);
    NoneIsSpared(young);
    assert Evicted(young, 0) == young;
  }

  lemma RoomIsWithinBytes(rs: seq<Record>, size: nat, limits: Limits)
    requires LeavesRoom(rs, size, limits)
    ensures size <= limits.bytes
  {
  }

  lemma {:induction false} YoungAreYoung(rs: seq<Record>, limits: Limits, now: int)
    ensures forall r :: r in Young(rs, limits, now) <==>
                        r in rs && (r.auditRequired || r.recordedAt >= now - limits.ageSeconds)
  {
    if rs != [] {
      var init, last := rs[..|rs| - 1], rs[|rs| - 1];
      YoungAreYoung(init, limits, now);
      assert rs == init + [last];
    }
  }

  lemma {:induction false} SparedAreThere(rs: seq<Record>, low: nat, normal: nat)
    ensures forall r | r in Spare(rs, low, normal) :: r in rs
  {
    if rs != [] {
      SparedAreThere(rs[1..], low, normal);
      if low > 0 {
        SparedAreThere(rs[1..], low - 1, normal);
      }
      if normal > 0 {
        SparedAreThere(rs[1..], low, normal - 1);
      }
    }
  }

  lemma {:induction false} OfAreThere(rs: seq<Record>, priority: Priority)
    ensures forall r | r in Of(rs, priority) :: r in rs
  {
    if rs != [] {
      OfAreThere(rs[1..], priority);
    }
  }

  /** After any append of a record that fits the buffer at all, everything older than the age limit is
      gone, audit records and the newcomer aside; and a record that is not that old is lost only when
      the young records and the newcomer together do not fit. */
  lemma LossesAreJustified(rs: seq<Record>, record: Record, limits: Limits, now: int, r: Record)
    requires record.size <= limits.bytes && r != record
    ensures var rs' := Appended(rs, record, limits, now).0;
            && (r in rs' ==> r in rs && (r.auditRequired || r.recordedAt >= now - limits.ageSeconds))
            && (r in rs && r !in rs' && r.recordedAt >= now - limits.ageSeconds ==>
                  !r.auditRequired && !LeavesRoom(Young(rs, limits, now), record.size, limits))
  {
    hide Appended, Young, LeavesRoom, Spare, Of;
    var young := Young(rs, limits, now);
    var n := AppendIsExact(rs, record, limits, now);
    YoungAreYoung(rs, limits, now);
    OfAreThere(young, Audit);
    var lows := |Of(young, Low)|;
    SparedAreThere(young, if n <= lows then n else lows, if n <= lows then 0 else n - lows);
    if LeavesRoom(young, record.size, limits) {
      OnlyTheOldGo(rs, record, limits, now);
    }
    if r in rs && r.auditRequired {
      AuditStays(rs, record, limits, now, r);
    }
  }

  /** An audit record is never lost. */
  lemma AuditStays(rs: seq<Record>, record: Record, limits: Limits, now: int, r: Record)
    requires r in rs && r.auditRequired
    ensures r in Appended(rs, record, limits, now).0
  {
    hide Appended, Of;
    AppendKeepsAudit(rs, record, limits, now);
    AuditIsOf(rs, r);
    var rs' := Appended(rs, record, limits, now).0;
    OfAreThere(rs', Audit);
    assert r in Of(rs', Audit);
  }

  lemma {:induction false} AuditIsOf(rs: seq<Record>, r: Record)
    requires r in rs && r.auditRequired
    ensures r in Of(rs, Audit)
  {
    if rs[0] != r {
      assert rs == [rs[0]] + rs[1..];
      AuditIsOf(rs[1..], r);
    }
  }
}
