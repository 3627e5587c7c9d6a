/** What a look-up in the decision cache tells about the calls made to it so far. */
module CacheHistories {
  import opened Results
  import opened DecisionCaches

  datatype CacheOp =
    | Fetch(key: CacheKey, now: int)
    | Store(key: CacheKey, reason: string, obligations: seq<string>, now: int, ttl: int)
    | Wipe

  function After(items: seq<Item>, op: CacheOp, bounds: Bounds): seq<Item>
    requires BoundsOk(bounds)
  {
    match op
    case Fetch(key, now) => AfterGet(items, key, now)
    case Store(key, reason, obligations, now, ttl) => AfterPut(items, key, reason, obligations, now, ttl, bounds)
    case Wipe => []
  }

  function Contents(h: seq<CacheOp>, bounds: Bounds): seq<Item>
    requires BoundsOk(bounds)
  {
    if h == [] then [] else After(Contents(h[..|h| - 1], bounds), h[|h| - 1], bounds)
  }

  /** The latest accepted put of a key since the cache was last cleared. */
  function LatestPut(h: seq<CacheOp>, key: CacheKey, bounds: Bounds): Option<Outcome> {
    if h == [] then None
    else
      match h[|h| - 1]
      case Wipe => None
      case Store(k, reason, obligations, now, ttl) =>
        if k == key && Accepted(reason, ttl, bounds) then Some(Outcome(reason, obligations, now + ttl))
        else LatestPut(h[..|h| - 1], key, bounds)
      case Fetch(_, _) => LatestPut(h[..|h| - 1], key, bounds)
  }

  /** The key that a call uses: one that is put, or one that is hit. */
  function UsedBy(items: seq<Item>, op: CacheOp, bounds: Bounds): Option<CacheKey> {
    match op
    case Fetch(key, now) => if Lookup(items, key, now).Some? then Some(key) else None
    case Store(key, reason, _, _, ttl) => if Accepted(reason, ttl, bounds) then Some(key) else None
    case Wipe => None
  }

  /** The other keys used since `key` was last used or the cache was last cleared. */
  function UsedSince(h: seq<CacheOp>, key: CacheKey, bounds: Bounds): set<CacheKey>
    requires BoundsOk(bounds)
  {
    if h == [] || h[|h| - 1].Wipe? then {}
    else
      match UsedBy(Contents(h[..|h| - 1], bounds), h[|h| - 1], bounds)
      case None => UsedSince(h[..|h| - 1], key, bounds)
      case Some(k) => if k == key then {} else UsedSince(h[..|h| - 1], key, bounds) + {k}
  }

  /** Some call was made at or after the time the outcome expires. */
  ghost predicate Lapsed(h: seq<CacheOp>, outcome: Outcome) {
    exists i | 0 <= i < |h| :: !h[i].Wipe? && outcome.expiresAt <= h[i].now
  }

  /** No earlier call was made at a later time. */
  ghost predicate NotBefore(h: seq<CacheOp>, now: int) {
    forall i | 0 <= i < |h| :: h[i].Wipe? || h[i].now <= now
  }

  /* ---------- The invariant over histories ---------- */

  ghost predicate Recorded(h: seq<CacheOp>, items: seq<Item>, bounds: Bounds) {
    forall i | 0 <= i < |items| :: LatestPut(h, items[i].key, bounds) == Some(items[i].outcome)
  }

  ghost predicate InUseOrder(h: seq<CacheOp>, items: seq<Item>, bounds: Bounds)
    requires BoundsOk(bounds)
  {
    forall i, j | 0 <= i < j < |items| :: items[j].key in UsedSince(h, items[i].key, bounds)
  }

  ghost predicate Excused(h: seq<CacheOp>, key: CacheKey, outcome: Outcome, bounds: Bounds)
    requires BoundsOk(bounds)
  {
    Lapsed(h, outcome) || |UsedSince(h, key, bounds)| >= bounds.entries
  }

  /** Every key that was put and is gone has lapsed or made room for enough others. */
  ghost predicate Accounted(h: seq<CacheOp>, items: seq<Item>, bounds: Bounds)
    requires BoundsOk(bounds)
  {
    forall key | LatestPut(h, key, bounds).Some? && Find(items, key).None? ::
      Excused(h, key, LatestPut(h, key, bounds).value, bounds)
  }

  ghost predicate Faithful(h: seq<CacheOp>, items: seq<Item>, bounds: Bounds)
    requires BoundsOk(bounds)
  {
    && Distinct(items)
    && |items| <= bounds.entries
    && Recorded(h, items, bounds)
    && InUseOrder(h, items, bounds)
    && Accounted(h, items, bounds)
  }

  lemma {:induction false} FindPosition(items: seq<Item>, key: CacheKey) returns (i: nat)
    requires Find(items, key).Some?
    ensures i < |items| && items[i].key == key && Find(items, key) == Some(items[i].outcome)
  {
    if items[0].key == key {
      i := 0;
    } else {
      var j := FindPosition(items[1..], key);
      i := j + 1;
    }
  }

  lemma Present(items: seq<Item>, i: nat)
    requires i < |items|
    ensures Find(items, items[i].key).Some?
  {
    assert items[i] in items;
  }

  function Keys(items: seq<Item>): set<CacheKey> {
    set i | 0 <= i < |items| :: items[i].key
  }

  lemma {:induction false} DistinctKeysCount(items: seq<Item>)
    requires Distinct(items)
    ensures |Keys(items)| == |items|
  {
    if items != [] {
      var init, last := items[..|items| - 1], items[|items| - 1];
      DistinctKeysCount(init);
      assert Keys(items) == Keys(init) + {last.key};
    }
  }

  lemma SubsetCount(a: set<CacheKey>, b: set<CacheKey>)
    requires a <= b
    ensures |a| <= |b|
  {
    assert b == a + (b - a);
  }

  /** What was excused stays excused until the key is used again. */
  lemma StillExcused(h: seq<CacheOp>, op: CacheOp, key: CacheKey, outcome: Outcome, bounds: Bounds)
    requires BoundsOk(bounds) && Excused(h, key, outcome, bounds) && !op.Wipe?
    requires UsedBy(Contents(h, bounds), op, bounds) != Some(key)
    ensures Excused(h + [op], key, outcome, bounds)
  {
    assert (h + [op])[..|h|] == h;
    if Lapsed(h, outcome) {
      var i :| 0 <= i < |h| && !h[i].Wipe? && outcome.expiresAt <= h[i].now;
      assert (h + [op])[i] == h[i];
    } else {
      SubsetCount(UsedSince(h, key, bounds), UsedSince(h + [op], key, bounds));
    }
  }

  /* ---------- One call ---------- */

  lemma CutKeepsOthers(items: seq<Item>, p: nat, key: CacheKey)
    requires p < |items| && key != items[p].key && Find(items, key).Some?
    ensures Find(Cut(items, p), key).Some?
  {
    var q := FindPosition(items, key);
    Present(Cut(items, p), if q < p then q else q - 1);
  }

  lemma CutIsInOrder(h: seq<CacheOp>, items: seq<Item>, p: nat, bounds: Bounds)
    requires BoundsOk(bounds) && p < |items| && Recorded(h, items, bounds) && InUseOrder(h, items, bounds)
    ensures Recorded(h, Cut(items, p), bounds) && InUseOrder(h, Cut(items, p), bounds)
  {
    hide LatestPut, UsedSince;
  }

  /** What removing a key leaves in place. */
  lemma RestIsFaithful(h: seq<CacheOp>, items: seq<Item>, key: CacheKey, bounds: Bounds) returns (rest: seq<Item>)
    requires BoundsOk(bounds) && Faithful(h, items, bounds)
    ensures rest == Without(items, key)
    ensures Distinct(rest) && Recorded(h, rest, bounds) && InUseOrder(h, rest, bounds) && |rest| <= |items|
    ensures forall i | 0 <= i < |rest| :: rest[i].key != key
    ensures forall k | k != key && Find(items, k).Some? :: Find(rest, k).Some?
  {
    hide Find, Without, Recorded, InUseOrder, Accounted;
    if Find(items, key).None? {
      NothingToRemove(items, key);
      rest := items;
    } else {
      var p := FindPosition(items, key);
      RemovedIsWithout(items, p);
      CutStaysDistinct(items, p);
      CutIsInOrder(h, items, p, bounds);
      rest := Cut(items, p);
      forall k | k != key && Find(items, k).Some? ensures Find(rest, k).Some? {
        CutKeepsOthers(items, p, k);
      }
    }
  }

  lemma UsedSinceStep(h: seq<CacheOp>, op: CacheOp, key: CacheKey, bounds: Bounds)
    requires BoundsOk(bounds) && !op.Wipe?
    ensures UsedSince(h + [op], key, bounds) ==
            match UsedBy(Contents(h, bounds), op, bounds)
            case None => UsedSince(h, key, bounds)
            case Some(k) => if k == key then {} else UsedSince(h, key, bounds) + {k}
  {
    assert (h + [op])[..|h|] == h;
  }

  lemma LatestPutStep(h: seq<CacheOp>, op: CacheOp, key: CacheKey, bounds: Bounds)
    requires !op.Wipe?
    ensures LatestPut(h + [op], key, bounds) ==
            if op.Store? && op.key == key && Accepted(op.reason, op.ttl, bounds)
            then Some(Outcome(op.reason, op.obligations, op.now + op.ttl))
            else LatestPut(h, key, bounds)
  {
    assert (h + [op])[..|h|] == h;
  }

  /** Using a key puts it last and leaves the others in order. */
  lemma UsedGoesLast(h: seq<CacheOp>, op: CacheOp, key: CacheKey, outcome: Outcome, bounds: Bounds)
    returns (items: seq<Item>)
    requires BoundsOk(bounds) && Faithful(h, Contents(h, bounds), bounds) && !op.Wipe?
    requires UsedBy(Contents(h, bounds), op, bounds) == Some(key)
    requires LatestPut(h + [op], key, bounds) == Some(outcome)
    requires op.key == key
    ensures items == Without(Contents(h, bounds), key) + [Item(key, outcome)]
    ensures Distinct(items) && Recorded(h + [op], items, bounds)
    ensures InUseOrder(h + [op], items, bounds) && Accounted(h + [op], items, bounds)
  {
    hide LatestPut, UsedSince, UsedBy, Contents, Excused;
    var h' := h + [op];
    var rest := RestIsFaithful(h, Contents(h, bounds), key, bounds);
    items := rest + [Item(key, outcome)];
    forall i | 0 <= i < |rest| ensures LatestPut(h', items[i].key, bounds) == Some(items[i].outcome) {
      LatestPutStep(h, op, items[i].key, bounds);
    }
    forall i, j | 0 <= i < j < |items| ensures items[j].key in UsedSince(h', items[i].key, bounds) {
      UsedSinceStep(h, op, items[i].key, bounds);
    }
    LongerFinds(rest, Item(key, outcome));
    forall k | LatestPut(h', k, bounds).Some? && Find(items, k).None?
      ensures Excused(h', k, LatestPut(h', k, bounds).value, bounds)
    {
      LatestPutStep(h, op, k, bounds);
      StillExcused(h, op, k, LatestPut(h, k, bounds).value, bounds);
    }
  }

  lemma LongerFinds(rest: seq<Item>, x: Item)
    ensures forall k | k == x.key || Find(rest, k).Some? :: Find(rest + [x], k).Some?
  {
    Present(rest + [x], |rest|);
    forall k | Find(rest, k).Some? ensures Find(rest + [x], k).Some? {
      var i := FindPosition(rest, k);
      Present(rest + [x], i);
    }
  }

  /** The item that is evicted made room for a full cache of other keys. */
  lemma EvictionIsExcused(h: seq<CacheOp>, items: seq<Item>, bounds: Bounds)
    requires BoundsOk(bounds) && |items| == bounds.entries + 1
    requires Distinct(items) && Recorded(h, items, bounds) && InUseOrder(h, items, bounds)
    requires Accounted(h, items, bounds)
    ensures Faithful(h, items[1..], bounds)
  {
    hide LatestPut, UsedSince;
    var kept := items[1..];
    assert forall i | 0 <= i < |kept| :: kept[i] == items[i + 1];
    DistinctKeysCount(kept);
    SubsetCount(Keys(kept), UsedSince(h, items[0].key, bounds));
    forall k | LatestPut(h, k, bounds).Some? && Find(kept, k).None?
      ensures Excused(h, k, LatestPut(h, k, bounds).value, bounds)
    {
      assert k == items[0].key || Find(items, k).None?;
    }
  }

  lemma StoreKeeps(h: seq<CacheOp>, op: CacheOp, bounds: Bounds)
    requires BoundsOk(bounds) && Faithful(h, Contents(h, bounds), bounds)
    requires op.Store? && Accepted(op.reason, op.ttl, bounds)
    ensures Faithful(h + [op], After(Contents(h, bounds), op, bounds), bounds)
  {
    hide LatestPut, UsedSince, Contents, Recorded, InUseOrder, Accounted;
    var outcome := Outcome(op.reason, op.obligations, op.now + op.ttl);
    LatestPutStep(h, op, op.key, bounds);
    var rest := RestIsFaithful(h, Contents(h, bounds), op.key, bounds);
    var items := UsedGoesLast(h, op, op.key, outcome, bounds);
    if |items| > bounds.entries {
      EvictionIsExcused(h + [op], items, bounds);
    }
  }

  lemma HitKeeps(h: seq<CacheOp>, op: CacheOp, bounds: Bounds)
    requires BoundsOk(bounds) && Faithful(h, Contents(h, bounds), bounds)
    requires op.Fetch? && Lookup(Contents(h, bounds), op.key, op.now).Some?
    ensures Faithful(h + [op], After(Contents(h, bounds), op, bounds), bounds)
  {
    hide LatestPut, UsedSince, Contents, InUseOrder, Accounted;
    var p := FindPosition(Contents(h, bounds), op.key);
    LatestPutStep(h, op, op.key, bounds);
    RemovedIsWithout(Contents(h, bounds), p);
    var items := UsedGoesLast(h, op, op.key, Lookup(Contents(h, bounds), op.key, op.now).value, bounds);
  }

  /** A look-up that misses, and a put that is not accepted, use no key; an expired item goes. */
  lemma IdleKeeps(h: seq<CacheOp>, op: CacheOp, bounds: Bounds)
    requires BoundsOk(bounds) && Faithful(h, Contents(h, bounds), bounds)
    requires !op.Wipe? && UsedBy(Contents(h, bounds), op, bounds).None?
    ensures Faithful(h + [op], After(Contents(h, bounds), op, bounds), bounds)
  {
    hide LatestPut, UsedSince, Contents, Excused;
    var items, items', h' := Contents(h, bounds), After(Contents(h, bounds), op, bounds), h + [op];
    if items' != items {
      var rest := RestIsFaithful(h, items, op.key, bounds);
    }
    forall i | 0 <= i < |items'| ensures LatestPut(h', items'[i].key, bounds) == Some(items'[i].outcome) {
      LatestPutStep(h, op, items'[i].key, bounds);
    }
    forall i, j | 0 <= i < j < |items'| ensures items'[j].key in UsedSince(h', items'[i].key, bounds) {
      UsedSinceStep(h, op, items'[i].key, bounds);
    }
    forall k | LatestPut(h', k, bounds).Some? && Find(items', k).None?
      ensures Excused(h', k, LatestPut(h', k, bounds).value, bounds)
    {
      LatestPutStep(h, op, k, bounds);
      if Find(items, k).None? {
        StillExcused(h, op, k, LatestPut(h, k, bounds).value, bounds);
      } else {
        var p := FindPosition(items, k);
        ExpiredIsExcused(h, op, k, items[p].outcome, bounds);
      }
    }
  }

  lemma ExpiredIsExcused(h: seq<CacheOp>, op: CacheOp, key: CacheKey, outcome: Outcome, bounds: Bounds)
    requires BoundsOk(bounds) && !op.Wipe? && outcome.expiresAt <= op.now
    ensures Excused(h + [op], key, outcome, bounds)
  {
    assert (h + [op])[|h|] == op;
  }

  lemma {:induction false} HistoryIsFaithful(h: seq<CacheOp>, bounds: Bounds)
    requires BoundsOk(bounds)
    ensures Faithful(h, Contents(h, bounds), bounds)
  {
    hide Recorded, InUseOrder, Accounted, After;
    if h == [] || h[|h| - 1].Wipe? {
      EmptyIsFaithful(h, bounds);
    } else {
      var init, op := h[..|h| - 1], h[|h| - 1];
      assert h == init + [op];
      HistoryIsFaithful(init, bounds);
      if UsedBy(Contents(init, bounds), op, bounds).None? {
        IdleKeeps(init, op, bounds);
      } else if op.Fetch? {
        HitKeeps(init, op, bounds);
      } else {
        StoreKeeps(init, op, bounds);
      }
    }
  }

  lemma EmptyIsFaithful(h: seq<CacheOp>, bounds: Bounds)
    requires BoundsOk(bounds) && (h == [] || h[|h| - 1].Wipe?)
    ensures Contents(h, bounds) == [] && Faithful(h, [], bounds)
  {
  }

  /* ---------- What a look-up tells ---------- */

  /** After any history of calls, a look-up finds only the latest accepted put of its key since
      the last clear, and only before it expires. If no earlier call had a later clock, it misses
      only when there was no such put, when it has expired, or when at least `entries` other keys
      have been used since the key's own last use. The cache never exceeds its bound. */
  lemma LookupIsLeastRecentlyUsed(h: seq<CacheOp>, key: CacheKey, now: int, bounds: Bounds)
    requires BoundsOk(bounds)
    ensures |Contents(h, bounds)| <= bounds.entries
    ensures var found, put := Lookup(Contents(h, bounds), key, now), LatestPut(h, key, bounds);
            && (found.Some? ==> found == put && now < put.value.expiresAt)
            && (found.None? && NotBefore(h, now) ==>
                  put.None? || put.value.expiresAt <= now || |UsedSince(h, key, bounds)| >= bounds.entries)
  {
    hide LatestPut, UsedSince, Contents, After;
    var items := Contents(h, bounds);
    HistoryIsFaithful(h, bounds);
    if Find(items, key).Some? {
      var i := FindPosition(items, key);
    } else if LatestPut(h, key, bounds).Some? {
      assert Excused(h, key, LatestPut(h, key, bounds).value, bounds);
    }
  }

  /* ---------- What one call does to the items ---------- */

  lemma AppendedContents(h: seq<CacheOp>, op: CacheOp, bounds: Bounds)
    requires BoundsOk(bounds)
    ensures Contents(h + [op], bounds) == After(Contents(h, bounds), op, bounds)
    ensures Distinct(Contents(h, bounds)) && |Contents(h, bounds)| <= bounds.entries
  {
    hide After, Recorded, InUseOrder, Accounted;
    HistoryIsFaithful(h, bounds);
    assert (h + [op])[..|h|] == h;
  }

  /** A fetch moves the item it finds to the end, takes an expired one out, and touches no other. */
  lemma FetchIsExact(h: seq<CacheOp>, key: CacheKey, now: int, bounds: Bounds)
    requires BoundsOk(bounds)
    ensures var items, items' := Contents(h, bounds), Contents(h + [Fetch(key, now)], bounds);
            && (forall i | 0 <= i < |items| && items[i].key == key ::
                  items' == items[..i] + items[i + 1..] + if now < items[i].outcome.expiresAt then [items[i]] else [])
            && ((forall i | 0 <= i < |items| :: items[i].key != key) ==> items' == items)
  {
    hide Contents, Without, Find;
    var items := Contents(h, bounds);
    AppendedContents(h, Fetch(key, now), bounds);
    if i :| 0 <= i < |items| && items[i].key == key {
      FindDistinct(items, items[i]);
      RemovedIsWithout(items, i);
      assert items[..i] + items[i + 1..] + [] == items[..i] + items[i + 1..];
    }
  }

  /** A put of an allow that lasts at least a second and at most the maximum replaces the item under
      its key; where there is none, the item used least recently makes room if the cache is full.
      Any other put changes nothing. */
  lemma StoreIsExact(h: seq<CacheOp>, key: CacheKey, reason: string, obligations: seq<string>, now: int, ttl: int,
                     bounds: Bounds)
    requires BoundsOk(bounds)
    ensures var items := Contents(h, bounds);
            var items' := Contents(h + [Store(key, reason, obligations, now, ttl)], bounds);
            var put := Item(key, Outcome("ALLOW", obligations, now + ttl));
            if reason != "ALLOW" || ttl < 1 || ttl > bounds.ttl then items' == items
            else
              && (forall i | 0 <= i < |items| && items[i].key == key ::
                    items' == items[..i] + items[i + 1..] + [put])
              && ((forall i | 0 <= i < |items| :: items[i].key != key) ==>
                    items' == (if |items| == bounds.entries then items[1..] else items) + [put])
  {
    hide Contents, Without;
    var items := Contents(h, bounds);
    AppendedContents(h, Store(key, reason, obligations, now, ttl), bounds);
    if i :| 0 <= i < |items| && items[i].key == key {
      assert forall j | 0 <= j < |items| && items[j].key == key :: j == i;
      RemovedIsWithout(items, i);
    } else {
      NothingToRemove(items, key);
    }
  }
}
