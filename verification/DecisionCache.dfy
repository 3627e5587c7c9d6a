/** The bounded cache of allow decisions: least recently used entries go first, and no entry
    outlives its time. */
module DecisionCaches {
  import opened Results

  /** Digests stand for the values they are taken of. */
  datatype Query = Query(action: string, resourceKind: string, resourceId: string, attributes: string, mutation: bool)

  datatype CacheKey = CacheKey(organizationId: string, subjectId: string, query: Query, policyDigest: string)

  datatype Outcome = Outcome(reason: string, obligations: seq<string>, expiresAt: int)

  datatype Item = Item(key: CacheKey, outcome: Outcome)

  /** `maximum_entries` and `maximum_ttl_seconds`. */
  datatype Bounds = Bounds(entries: int, ttl: int)

  predicate BoundsOk(bounds: Bounds) {
    1 <= bounds.entries <= 1024 && 1 <= bounds.ttl <= 30
  }

  /* ---------- The ordered dictionary, oldest use first ---------- */

  predicate Distinct(items: seq<Item>) {
    forall i, j | 0 <= i < j < |items| :: items[i].key != items[j].key
  }

  function Find(items: seq<Item>, key: CacheKey): (r: Option<Outcome>)
    ensures r.Some? ==> Item(key, r.value) in items
    ensures r.None? ==> forall x | x in items :: x.key != key
  {
    if items == [] then None
    else if items[0].key == key then Some(items[0].outcome)
    else Find(items[1..], key)
  }

  function Without(items: seq<Item>, key: CacheKey): seq<Item> {
    if items == [] then []
    else if items[0].key == key then Without(items[1..], key)
    else [items[0]] + Without(items[1..], key)
  }

  function Cut(items: seq<Item>, i: nat): (r: seq<Item>)
    requires i < |items|
    ensures |r| == |items| - 1
    ensures forall j | 0 <= j < |r| :: r[j] == items[if j < i then j else j + 1]
  {
    items[..i] + items[i + 1..]
  }

  function Lookup(items: seq<Item>, key: CacheKey, now: int): Option<Outcome> {
    match Find(items, key)
    case Some(outcome) => if now < outcome.expiresAt then Some(outcome) else None
    case None => None
  }

  function AfterGet(items: seq<Item>, key: CacheKey, now: int): seq<Item> {
    match Find(items, key)
    case None => items
    case Some(outcome) =>
      if now < outcome.expiresAt then Without(items, key) + [Item(key, outcome)] else Without(items, key)
  }

  predicate Accepted(reason: string, ttl: int, bounds: Bounds) {
    reason == "ALLOW" && 1 <= ttl <= bounds.ttl
  }

  /** What remains when the oldest items beyond the bound are dropped. */
  function Newest(items: seq<Item>, entries: nat): seq<Item> {
    if |items| <= entries then items else items[|items| - entries..]
  }

  function AfterPut(items: seq<Item>, key: CacheKey, reason: string, obligations: seq<string>, now: int, ttl: int,
                    bounds: Bounds)
    : seq<Item>
    requires BoundsOk(bounds)
  {
    if !Accepted(reason, ttl, bounds) then items
    else Newest(Without(items, key) + [Item(key, Outcome(reason, obligations, now + ttl))], bounds.entries)
  }

  /* ---------- The cache object ---------- */

  class DecisionCache {
    const bounds: Bounds
    var items: seq<Item>

    ghost predicate Valid()
      reads this
    {
      BoundsOk(bounds) && Distinct(items) && |items| <= bounds.entries
    }

    constructor (bounds: Bounds)
      requires BoundsOk(bounds)
      ensures Valid() && this.bounds == bounds && items == []
    {
      this.bounds := bounds;
      items := [];
    }

    /** The position of a key in the dictionary. */
    method IndexOf(key: CacheKey) returns (i: nat)
      requires Distinct(items)
      ensures i <= |items|
      ensures i < |items| ==> items[i].key == key && Find(items, key) == Some(items[i].outcome)
      ensures i == |items| <==> Find(items, key).None?
    {
      i := 0;
      while i < |items| && items[i].key != key
        invariant 0 <= i <= |items|
        invariant Find(items, key) == Find(items[i..], key)
      {
        assert items[i..][1..] == items[i + 1..];
        i := i + 1;
      }
      if i < |items| {
        assert items[i..][0] == items[i];
      }
    }

    method Get(key: CacheKey, now: int) returns (value: Option<Outcome>)
      requires Valid()
      modifies this`items
      ensures Valid()
      ensures value == Lookup(old(items), key, now)
      ensures items == AfterGet(old(items), key, now)
    {
      var i := IndexOf(key);
      if i == |items| {
        return None;
      }
      var item := items[i];
      RemovedIsWithout(items, i);
      CutStaysDistinct(items, i);
      if now >= item.outcome.expiresAt {
        items := Cut(items, i);
        return None;
      }
      items := Cut(items, i) + [item];
      return Some(item.outcome);
    }

    method Put(key: CacheKey, reason: string, obligations: seq<string>, now: int, ttl: int)
      requires Valid()
      modifies this`items
      ensures Valid()
      ensures items == AfterPut(old(items), key, reason, obligations, now, ttl, bounds)
    {
      if reason != "ALLOW" || !(1 <= ttl <= bounds.ttl) {
        return;
      }
      var value := Outcome(reason, obligations, now + ttl);
      var i := IndexOf(key);
      if i < |items| {
        RemovedIsWithout(items, i);
        CutStaysDistinct(items, i);
        items := Cut(items, i) + [Item(key, value)];
      } else {
        NothingToRemove(items, key);
        items := items + [Item(key, value)];
      }
      Evict();
    }

    /** Pops the oldest items until the bound holds. */
    method Evict()
      requires BoundsOk(bounds) && Distinct(items)
      modifies this`items
      ensures items == Newest(old(items), bounds.entries) && Distinct(items)
    {
      ghost var all := items;
      while |items| > bounds.entries
        invariant |items| <= |all| && items == all[|all| - |items|..]
        invariant |items| == |all| || |items| >= bounds.entries
      {
        items := items[1..];
      }
    }

    method Clear()
      modifies this`items
      ensures items == []
    {
      items := [];
    }
  }

  /** The constructor refuses bounds outside the agreed maxima. */
  method MakeCache(maximumEntries: int, maximumTtl: int) returns (cache: Option<DecisionCache>)
    ensures cache.Some? <==> 1 <= maximumEntries <= 1024 && 1 <= maximumTtl <= 30
    ensures cache.Some? ==> fresh(cache.value) && cache.value.Valid() && cache.value.items == []
    ensures cache.Some? ==> cache.value.bounds == Bounds(maximumEntries, maximumTtl)
  {
    if !BoundsOk(Bounds(maximumEntries, maximumTtl)) {
      return None;
    }
    var made := new DecisionCache(Bounds(maximumEntries, maximumTtl));
    return Some(made);
  }

  lemma {:induction false} NothingToRemove(items: seq<Item>, key: CacheKey)
    requires forall i | 0 <= i < |items| :: items[i].key != key
    ensures Without(items, key) == items
  {
    if items != [] {
      NothingToRemove(items[1..], key);
    }
  }

  lemma CutStaysDistinct(items: seq<Item>, i: nat)
    requires Distinct(items) && i < |items|
    ensures Distinct(Cut(items, i))
    ensures forall j | 0 <= j < |Cut(items, i)| :: Cut(items, i)[j].key != items[i].key
  {
    var cut := Cut(items, i);
    forall j | 0 <= j < |cut| ensures cut[j] == items[if j < i then j else j + 1] {
    }
  }

  lemma CutOfRest(items: seq<Item>, i: nat)
    requires 0 < i < |items|
    ensures Cut(items, i) == [items[0]] + Cut(items[1..], i - 1)
  {
  }

  /** Taking out the item at the key's position is all there is to removing the key. */
  lemma {:induction false} RemovedIsWithout(items: seq<Item>, i: nat)
    requires Distinct(items) && i < |items|
    ensures Without(items, items[i].key) == Cut(items, i)
  {
    hide Cut;
    if i == 0 {
      NothingToRemove(items[1..], items[0].key);
      assert Cut(items, 0) == items[1..];
    } else {
      RemovedIsWithout(items[1..], i - 1);
      CutOfRest(items, i);
    }
  }

  lemma {:induction false} FindDistinct(items: seq<Item>, x: Item)
    requires Distinct(items) && x in items
    ensures Find(items, x.key) == Some(x.outcome)
  {
    if items[0] != x {
      var j :| 0 <= j < |items| && items[j] == x;
      assert items[1..][j - 1] == x;
      FindDistinct(items[1..], x);
    }
  }
}
