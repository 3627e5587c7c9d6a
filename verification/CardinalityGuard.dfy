/** The guard that bounds how many distinct values each tenant may show per attribute. */
module CardinalityGuards {
  import opened Results

  datatype Bucket = Bucket(organizationId: string, key: string)

  /** An attribute and the canonical text of its value. */
  datatype Attribute = Attribute(key: string, marker: string)

  type Values = map<Bucket, set<string>>

  function Seen(values: Values, bucket: Bucket): set<string> {
    if bucket in values then values[bucket] else {}
  }

  predicate Admissible(values: Values, bucket: Bucket, marker: string, maximum: nat) {
    marker in Seen(values, bucket) || |Seen(values, bucket)| < maximum
  }

  /** The bucket exists afterwards even when the value was not admitted. */
  function AfterOne(values: Values, bucket: Bucket, marker: string, maximum: nat): Values {
    var seen := Seen(values, bucket);
    values[bucket := if Admissible(values, bucket, marker, maximum) then seen + {marker} else seen]
  }

  function AfterAll(values: Values, organizationId: string, attributes: seq<Attribute>, maximum: nat): Values {
    if attributes == [] then values
    else
      var init, last := attributes[..|attributes| - 1], attributes[|attributes| - 1];
      AfterOne(AfterAll(values, organizationId, init, maximum), Bucket(organizationId, last.key), last.marker, maximum)
  }

  function Accepted(values: Values, organizationId: string, attributes: seq<Attribute>, maximum: nat): seq<Attribute> {
    if attributes == [] then []
    else
      var init, last := attributes[..|attributes| - 1], attributes[|attributes| - 1];
      var earlier := Accepted(values, organizationId, init, maximum);
      if Admissible(AfterAll(values, organizationId, init, maximum), Bucket(organizationId, last.key), last.marker,
                    maximum)
      then earlier + [last] else earlier
  }

  /* ---------- The guard object ---------- */

  class CardinalityGuard {
    const maximum: nat
    var values: Values

    constructor (maximum: nat)
      ensures this.maximum == maximum && values == map[]
    {
      this.maximum := maximum;
      values := map[];
    }

    /** `attributes` are the items in key order. */
    method Admit(organizationId: string, attributes: seq<Attribute>) returns (accepted: seq<Attribute>, dropped: nat)
      modifies this
      ensures values == AfterAll(old(values), organizationId, attributes, maximum)
      ensures accepted == Accepted(old(values), organizationId, attributes, maximum)
      ensures |accepted| + dropped == |attributes|
    {
      accepted, dropped := [], 0;
      for i := 0 to |attributes|
        invariant values == AfterAll(old(values), organizationId, attributes[..i], maximum)
        invariant accepted == Accepted(old(values), organizationId, attributes[..i], maximum)
        invariant |accepted| + dropped == i
      {
        assert attributes[..i + 1][..i] == attributes[..i];
        var admitted := AdmitOne(Bucket(organizationId, attributes[i].key), attributes[i].marker);
        if admitted {
          accepted := accepted + [attributes[i]];
        } else {
          dropped := dropped + 1;
        }
      }
      assert attributes[..|attributes|] == attributes;
    }

    method AdmitOne(bucket: Bucket, marker: string) returns (admitted: bool)
      modifies this
      ensures admitted == Admissible(old(values), bucket, marker, maximum)
      ensures values == AfterOne(old(values), bucket, marker, maximum)
    {
      if bucket !in values {
        values := values[bucket := {}];
      }
      if marker !in values[bucket] && |values[bucket]| >= maximum {
        return false;
      }
      values := values[bucket := values[bucket] + {marker}];
      return true;
    }
  }

  method MakeGuard(maximum: int) returns (guard: Option<CardinalityGuard>)
    ensures guard.Some? <==> 1 <= maximum <= 10_000
    ensures guard.Some? ==> fresh(guard.value) && guard.value.maximum == maximum && guard.value.values == map[]
  {
    if !(1 <= maximum <= 10_000) {
      return None;
    }
    var made := new CardinalityGuard(maximum);
    return Some(made);
  }

  /* ---------- Histories of admissions ---------- */

  /** One value that was presented to the guard. */
  datatype Presented = Presented(bucket: Bucket, marker: string)

  function Presentations(organizationId: string, attributes: seq<Attribute>): (r: seq<Presented>)
    ensures |r| == |attributes|
  {
    seq(|attributes|, i requires 0 <= i < |attributes| =>
      Presented(Bucket(organizationId, attributes[i].key), attributes[i].marker))
  }

  function After(h: seq<Presented>, maximum: nat): Values {
    if h == [] then map[]
    else AfterOne(After(h[..|h| - 1], maximum), h[|h| - 1].bucket, h[|h| - 1].marker, maximum)
  }

  /** The distinct markers ever presented for one bucket, in the order they first came up. */
  function Distinct(h: seq<Presented>, bucket: Bucket): seq<string> {
    if h == [] then []
    else
      var earlier, last := Distinct(h[..|h| - 1], bucket), h[|h| - 1];
      if last.bucket == bucket && last.marker !in earlier then earlier + [last.marker] else earlier
  }

  function First(markers: seq<string>, n: nat): seq<string> {
    if |markers| <= n then markers else markers[..n]
  }

  function Elements(markers: seq<string>): set<string> {
    set m | m in markers
  }

  ghost predicate NoRepeats(markers: seq<string>) {
    forall i, j | 0 <= i < j < |markers| :: markers[i] != markers[j]
  }

  lemma {:induction false} DistinctHasNoRepeats(h: seq<Presented>, bucket: Bucket)
    ensures NoRepeats(Distinct(h, bucket))
  {
    if h != [] {
      DistinctHasNoRepeats(h[..|h| - 1], bucket);
    }
  }

  lemma {:induction false} ElementsCount(markers: seq<string>)
    requires NoRepeats(markers)
    ensures |Elements(markers)| == |markers|
  {
    if markers != [] {
      var init, last := markers[..|markers| - 1], markers[|markers| - 1];
      ElementsCount(init);
      assert Elements(markers) == Elements(init) + {last};
    }
  }

  /** A bucket holds the first `maximum` distinct markers of its own history. */
  lemma {:induction false} BucketHoldsTheFirst(h: seq<Presented>, bucket: Bucket, maximum: nat)
    ensures Seen(After(h, maximum), bucket) == Elements(First(Distinct(h, bucket), maximum))
  {
    if h != [] {
      var init, last := h[..|h| - 1], h[|h| - 1];
      BucketHoldsTheFirst(init, bucket, maximum);
      if last.bucket == bucket {
        var markers := Distinct(init, bucket);
        DistinctHasNoRepeats(init, bucket);
        ElementsCount(First(markers, maximum));
        FirstGrows(markers, last.marker, maximum);
      }
    }
  }

  lemma FirstGrows(markers: seq<string>, marker: string, maximum: nat)
    ensures Elements(First(markers + [marker], maximum)) ==
            Elements(First(markers, maximum)) + if |markers| < maximum then {marker} else {}
  {
    if maximum <= |markers| {
      assert First(markers + [marker], maximum) == First(markers, maximum);
    }
  }

  /** After any history, a value is accepted exactly when its marker is among the first `maximum`
      distinct markers ever presented for that tenant and attribute, itself included. */
  lemma AcceptsTheFirst(h: seq<Presented>, bucket: Bucket, marker: string, maximum: nat)
    ensures Admissible(After(h, maximum), bucket, marker, maximum) <==>
            marker in First(Distinct(h + [Presented(bucket, marker)], bucket), maximum)
  {
    var markers := Distinct(h, bucket);
    assert (h + [Presented(bucket, marker)])[..|h|] == h;
    BucketHoldsTheFirst(h, bucket, maximum);
    DistinctHasNoRepeats(h, bucket);
    ElementsCount(First(markers, maximum));
    if marker !in markers {
      FirstGrows(markers, marker, maximum);
      assert marker in First(markers + [marker], maximum) <==> marker in Elements(First(markers + [marker], maximum));
    }
  }

  /** The presentations for one bucket. */
  function Only(h: seq<Presented>, bucket: Bucket): seq<Presented> {
    if h == [] then []
    else
      var earlier := Only(h[..|h| - 1], bucket);
      if h[|h| - 1].bucket == bucket then earlier + [h[|h| - 1]] else earlier
  }

  /** What other tenants present, or the same tenant for other attributes, makes no difference. */
  lemma BucketsAreIndependent(h: seq<Presented>, h': seq<Presented>, bucket: Bucket, marker: string, maximum: nat)
    requires Only(h, bucket) == Only(h', bucket)
    ensures Admissible(After(h, maximum), bucket, marker, maximum) <==>
            Admissible(After(h', maximum), bucket, marker, maximum)
  {
    DistinctOfOnly(h, bucket);
    DistinctOfOnly(h', bucket);
    BucketHoldsTheFirst(h, bucket, maximum);
    BucketHoldsTheFirst(h', bucket, maximum);
  }

  lemma {:induction false} DistinctOfOnly(h: seq<Presented>, bucket: Bucket)
    ensures Distinct(Only(h, bucket), bucket) == Distinct(h, bucket)
  {
    if h != [] {
      DistinctOfOnly(h[..|h| - 1], bucket);
      var earlier, last := Only(h[..|h| - 1], bucket), h[|h| - 1];
      assert (earlier + [last])[..|earlier|] == earlier;
    }
  }

  /** One call to the guard presents its attributes one after the other. */
  lemma {:induction false} CallIsHistory(h: seq<Presented>, organizationId: string, attributes: seq<Attribute>,
                                         maximum: nat)
    ensures AfterAll(After(h, maximum), organizationId, attributes, maximum) ==
            After(h + Presentations(organizationId, attributes), maximum)
  {
    var presented := Presentations(organizationId, attributes);
    if attributes == [] {
      assert h + presented == h;
    } else {
      var init := attributes[..|attributes| - 1];
      CallIsHistory(h, organizationId, init, maximum);
      assert (h + presented)[..|h + presented| - 1] == h + Presentations(organizationId, init);
    }
  }

  /** Of the attributes of one call after history `h`, those whose marker is, at its turn, among the
      first `maximum` distinct ones of its bucket. */
  function AmongTheFirst(h: seq<Presented>, organizationId: string, attributes: seq<Attribute>, maximum: nat)
    : seq<Attribute>
  {
    if attributes == [] then []
    else
      var init, last := attributes[..|attributes| - 1], attributes[|attributes| - 1];
      var earlier := AmongTheFirst(h, organizationId, init, maximum);
      var presented := h + Presentations(organizationId, attributes);
      if last.marker in First(Distinct(presented, Bucket(organizationId, last.key)), maximum) then earlier + [last]
      else earlier
  }

  lemma PresentedLast(h: seq<Presented>, organizationId: string, attributes: seq<Attribute>)
    requires attributes != []
    ensures var last := attributes[|attributes| - 1];
            h + Presentations(organizationId, attributes) ==
            h + Presentations(organizationId, attributes[..|attributes| - 1]) +
            [Presented(Bucket(organizationId, last.key), last.marker)]
  {
  }

  /** A call lets through exactly those attributes, in order. */
  lemma {:induction false} CallAcceptsTheFirst(h: seq<Presented>, organizationId: string, attributes: seq<Attribute>,
                                               maximum: nat)
    ensures Accepted(After(h, maximum), organizationId, attributes, maximum) ==
            AmongTheFirst(h, organizationId, attributes, maximum)
  {
    hide After, AfterAll, Distinct, First, Admissible, Presentations;
    if attributes != [] {
      var init, last := attributes[..|attributes| - 1], attributes[|attributes| - 1];
      var earlier := h + Presentations(organizationId, init);
      CallAcceptsTheFirst(h, organizationId, init, maximum);
      CallIsHistory(h, organizationId, init, maximum);
      AcceptsTheFirst(earlier, Bucket(organizationId, last.key), last.marker, maximum);
      PresentedLast(h, organizationId, attributes);
    }
  }
}
