/** How look-ups, filters and sums react to appending to a list or changing one state. */
module LedgerSequences {
  import opened Results
  import opened Dimensions
  import opened UsageModels
  import opened LedgerSpec
  import opened LedgerInvariant

  /* ---------- Look-ups ---------- */

  /** In a dictionary the one entry under an id is found. */
  lemma {:induction false} FindMember(rs: seq<Reservation>, r: Reservation)
    requires DistinctIds(rs) && r in rs
    ensures FindReservation(rs, r.reservationId) == Some(r)
  {
    var i :| 0 <= i < |rs| && rs[i] == r;
    var found := FindReservation(rs, r.reservationId).value;
    var j :| 0 <= j < |rs| && rs[j] == found;
  }

  lemma FindAppended(rs: seq<Reservation>, x: Reservation, id: Id)
    ensures FindReservation(rs + [x], id) ==
            if FindReservation(rs, id).Some? then FindReservation(rs, id)
            else if x.reservationId == id then Some(x) else None
  {
    assert (rs + [x])[..|rs|] == rs;
  }

  lemma {:induction false} FindWithState(rs: seq<Reservation>, id: Id, state: ReservationState, other: Id)
    requires DistinctIds(rs)
    ensures var f := FindReservation(rs, other);
            FindReservation(WithState(rs, id, state), other) ==
            if f.Some? && f.value.reservationId == id then Some(f.value.(state := state)) else f
  {
    hide FindReservation, WithState;
    var rs' := WithState(rs, id, state);
    var f, f' := FindReservation(rs, other), FindReservation(rs', other);
    if f.Some? {
      var i :| 0 <= i < |rs| && rs[i] == f.value;
      assert rs'[i] in rs';
      FindMember(rs', rs'[i]);
    } else {
      forall x | x in rs' ensures x.reservationId != other {
        var i :| 0 <= i < |rs'| && rs'[i] == x;
        assert rs[i] in rs;
      }
    }
  }

  lemma FindTransitionAppended(ts: seq<Transition>, x: Transition, id: Id)
    ensures FindTransition(ts + [x], id) ==
            if FindTransition(ts, id).Some? then FindTransition(ts, id)
            else if x.transitionId == id then Some(x) else None
  {
    assert (ts + [x])[..|ts|] == ts;
  }

  /** What is found in a list is found in every extension of it. */
  lemma {:induction false} FindTransitionExtended(ts: seq<Transition>, ts': seq<Transition>, id: Id)
    requires ts <= ts' && FindTransition(ts, id).Some?
    ensures FindTransition(ts', id) == FindTransition(ts, id)
    decreases |ts'|
  {
    if |ts| < |ts'| {
      FindTransitionExtended(ts, ts'[..|ts'| - 1], id);
    } else {
      assert ts == ts';
    }
  }

  lemma WithStateIsInPlace(rs: seq<Reservation>, r: Reservation, state: ReservationState)
    requires DistinctIds(rs) && r in rs
    ensures DistinctIds(WithState(rs, r.reservationId, state))
    ensures forall x :: x in WithState(rs, r.reservationId, state) <==>
                        x == r.(state := state) || (x in rs && x.reservationId != r.reservationId)
  {
    hide WithState;
    var rs' := WithState(rs, r.reservationId, state);
    var i :| 0 <= i < |rs| && rs[i] == r;
    assert rs'[i] == r.(state := state);
    forall x | x in rs && x.reservationId != r.reservationId ensures x in rs' {
      var j :| 0 <= j < |rs| && rs[j] == x;
      assert rs'[j] == x;
    }
    forall x | x in rs' ensures x == r.(state := state) || (x in rs && x.reservationId != r.reservationId) {
      var j :| 0 <= j < |rs'| && rs'[j] == x;
      assert rs[j] in rs;
    }
  }

  /* ---------- Sums ---------- */

  lemma CommittedAppended(es: seq<UsageEntry>, e: UsageEntry, k: AggregateKey, d: nat)
    requires d < COUNT
    ensures CommittedIn(es + [e], k, d) == CommittedIn(es, k, d) + if EntryKey(e) == k then e.dimensions[d] else 0
  {
    assert (es + [e])[..|es|] == es;
  }

  lemma ReservedAppended(rs: seq<Reservation>, r: Reservation, k: AggregateKey, d: nat)
    requires d < COUNT
    ensures ReservedIn(rs + [r], k, d) ==
            ReservedIn(rs, k, d) + if ReservationKey(r) == k && r.state == Reserved then r.requested[d] else 0
  {
    assert (rs + [r])[..|rs|] == rs;
  }

  /** Entries of other windows do not count. */
  lemma {:induction false} CommittedExtended(es: seq<UsageEntry>, es': seq<UsageEntry>, k: AggregateKey, d: nat)
    requires d < COUNT && es <= es'
    requires forall i | |es| <= i < |es'| :: EntryKey(es'[i]) != k
    ensures CommittedIn(es', k, d) == CommittedIn(es, k, d)
    decreases |es'|
  {
    if |es| < |es'| {
      CommittedExtended(es, es'[..|es'| - 1], k, d);
    } else {
      assert es == es';
    }
  }

  lemma {:induction false} WithStateElsewhere(rs: seq<Reservation>, id: Id, state: ReservationState)
    requires forall r | r in rs :: r.reservationId != id
    ensures WithState(rs, id, state) == rs
  {
    forall i | 0 <= i < |rs| ensures WithState(rs, id, state)[i] == rs[i] {
      assert rs[i] in rs;
    }
  }

  lemma WithStateOfLast(init: seq<Reservation>, last: Reservation, id: Id, state: ReservationState)
    ensures WithState(init + [last], id, state) ==
            WithState(init, id, state) + [if last.reservationId == id then last.(state := state) else last]
  {
  }

  /** Leaving the reserved state takes exactly the requested amounts out of the window. */
  lemma {:induction false} ReservedWithState(rs: seq<Reservation>, r: Reservation, state: ReservationState,
                                             k: AggregateKey, d: nat)
    requires d < COUNT
    requires DistinctIds(rs) && r in rs && r.state == Reserved && state != Reserved
    ensures ReservedIn(rs, k, d) ==
            ReservedIn(WithState(rs, r.reservationId, state), k, d) +
            if ReservationKey(r) == k then r.requested[d] else 0
  {
    var init, last := rs[..|rs| - 1], rs[|rs| - 1];
    assert rs == init + [last];
    WithStateOfLast(init, last, r.reservationId, state);
    if last == r {
      ReservedAppended(init, r, k, d);
      ReservedAppended(init, r.(state := state), k, d);
      LastIsNotEarlier(init, last);
      WithStateElsewhere(init, r.reservationId, state);
    } else {
      LastIsNotEarlier(init, last);
      ReservedAppended(init, last, k, d);
      ReservedAppended(WithState(init, r.reservationId, state), last, k, d);
      ReservedWithState(init, r, state, k, d);
    }
  }

  lemma LastIsNotEarlier(init: seq<Reservation>, last: Reservation)
    requires DistinctIds(init + [last])
    ensures DistinctIds(init)
    ensures forall x | x in init :: x.reservationId != last.reservationId
  {
    var rs := init + [last];
    forall x | x in init ensures x.reservationId != last.reservationId {
      var i :| 0 <= i < |init| && init[i] == x;
      assert rs[i] == x && rs[|init|] == last;
    }
    forall i, j | 0 <= i < j < |init| ensures init[i].reservationId != init[j].reservationId {
      assert rs[i] == init[i] && rs[j] == init[j];
    }
  }

  /** When nothing under `k` is live, nothing is reserved there. */
  lemma {:induction false} NothingReserved(rs: seq<Reservation>, k: AggregateKey, d: nat)
    requires d < COUNT
    requires forall r | r in rs && r.state == Reserved :: ReservationKey(r) != k
    ensures ReservedIn(rs, k, d) == 0
  {
    if rs != [] {
      assert rs == rs[..|rs| - 1] + [rs[|rs| - 1]];
      NothingReserved(rs[..|rs| - 1], k, d);
    }
  }

  lemma {:induction false} NothingCommitted(es: seq<UsageEntry>, k: AggregateKey, d: nat)
    requires d < COUNT
    requires forall e | e in es :: EntryKey(e) != k
    ensures CommittedIn(es, k, d) == 0
  {
    if es != [] {
      assert es == es[..|es| - 1] + [es[|es| - 1]];
      NothingCommitted(es[..|es| - 1], k, d);
    }
  }

  /* ---------- Filters ---------- */

  lemma CommittedOnesAppended(ts: seq<Transition>, t: Transition)
    ensures CommittedOnes(ts + [t]) == CommittedOnes(ts) + if t.state == Committed then [t] else []
  {
    assert (ts + [t])[..|ts|] == ts;
  }

  lemma SelectAppended(events: seq<OutboxEvent>, e: OutboxEvent, reserved: bool)
    ensures Select(events + [e], reserved) ==
            Select(events, reserved) + if (e.kind == UsageReserved) == reserved then [e] else []
  {
    assert (events + [e])[..|events|] == events;
  }

  lemma EmissionsAppended(audit: seq<AuditRecord>, a: AuditRecord)
    ensures Emissions(audit + [a]) == Emissions(audit) + if a.Emitted? then [a.event] else []
  {
    assert (audit + [a])[..|audit|] == audit;
  }

  /** The due reservations are a sub-list: distinct ids stay distinct. */
  lemma {:induction false} DueIsDistinct(rs: seq<Reservation>, organizationId: string, now: int)
    requires DistinctIds(rs)
    ensures DistinctIds(Due(rs, organizationId, now))
  {
    if rs != [] {
      var init, last := rs[..|rs| - 1], rs[|rs| - 1];
      assert forall i, j | 0 <= i < j < |init| :: init[i] == rs[i] && init[j] == rs[j];
      DueIsDistinct(init, organizationId, now);
      var due := Due(init, organizationId, now);
      forall i | 0 <= i < |due| ensures due[i].reservationId != last.reservationId {
        assert due[i] in init;
        var j :| 0 <= j < |init| && init[j] == due[i];
        assert rs[j] == due[i];
      }
    }
  }
}
