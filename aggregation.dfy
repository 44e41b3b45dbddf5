/**
 * The two aggregations of the query service: event counts keyed by the full
 * taxonomy, and the event-by-urgency table of the last week's documents.
 */
module Aggregation {
  import opened Documents
  import opened MessageSearch

  /** One bucket of the terms aggregation on `event.keyword`. */
  datatype Bucket = Bucket(key: string, docCount: nat)

  /** The set of the five event types. */
  function TaxonomyKeys(): set<string>
  {
    set e | e in Taxonomy
  }

  /** Number of documents of event type `e` (counted from the back). */
  function CountEvent(docs: seq<Doc>, e: string): nat
  {
    if docs == [] then 0
    else CountEvent(docs[..|docs| - 1], e) + (if docs[|docs| - 1].event == e then 1 else 0)
  }

  /**
   * The `eventCounts` object after writing every bucket in order: a later
   * bucket with the same key overwrites an earlier one.
   */
  function BucketTable(buckets: seq<Bucket>): (t: map<string, nat>)
    ensures t.Keys == set i | 0 <= i < |buckets| :: buckets[i].key
  {
    if buckets == [] then map[]
    else
      var n := |buckets| - 1;
      assert forall i :: 0 <= i < n ==> buckets[..n][i] == buckets[i];
      BucketTable(buckets[..n])[buckets[n].key := buckets[n].docCount]
  }

  /** The count recorded for a key is that of the last bucket carrying the key. */
  lemma {:induction false} LastBucketWins(buckets: seq<Bucket>, i: nat)
    requires i < |buckets|
    requires forall j :: i < j < |buckets| ==> buckets[j].key != buckets[i].key
    ensures buckets[i].key in BucketTable(buckets)
    ensures BucketTable(buckets)[buckets[i].key] == buckets[i].docCount
  {
    var n := |buckets| - 1;
    if i < n {
      LastBucketWins(buckets[..n], i);
    }
  }

  /**
   * The key fill: every taxonomy type, with its bucket count or 0; keys
   * outside the taxonomy are dropped.
   */
  function FillTaxonomy(counts: map<string, nat>): (r: map<string, nat>)
    ensures r.Keys == TaxonomyKeys()
    ensures forall e :: e in Taxonomy && e in counts ==> r[e] == counts[e]
    ensures forall e :: e in Taxonomy && e !in counts ==> r[e] == 0
  {
    map e | e in Taxonomy :: if e in counts then counts[e] else 0
  }

  /**
   * `getEventCounts` after the aggregation request: `reply` is the bucket
   * list, or `None` when the request failed, in which case the result is
   * the empty object rather than the five keys.
   */
  method EventCounts(reply: Option<seq<Bucket>>) returns (r: map<string, nat>)
    ensures reply.None? ==> r == map[]
    ensures reply.Some? ==> r == FillTaxonomy(BucketTable(reply.value))
  {
    match reply {
      case None =>
        r := map[];
      case Some(buckets) =>
        var counts: map<string, nat> := map[];
        for i := 0 to |buckets|
          invariant counts == BucketTable(buckets[..i])
        {
          assert buckets[..i + 1][..i] == buckets[..i];
          counts := counts[buckets[i].key := buckets[i].docCount];
        }
        assert buckets[..|buckets|] == buckets;
        r := FillTaxonomy(counts);
    }
  }

  /** The aggregation reports the true count of every taxonomy type it lists, and lists every type that occurs. */
  predicate Faithful(buckets: seq<Bucket>, docs: seq<Doc>)
  {
    var t := BucketTable(buckets);
    forall e :: e in Taxonomy ==>
      if e in t then t[e] == CountEvent(docs, e) else CountEvent(docs, e) == 0
  }

  /** The sum of the counts of the types `keys`. */
  function CountEvents(docs: seq<Doc>, keys: seq<string>): nat
  {
    if keys == [] then 0 else CountEvent(docs, keys[0]) + CountEvents(docs, keys[1..])
  }

  /** The sum of the values at `keys`. */
  function SumAt(m: map<string, nat>, keys: seq<string>): nat
    requires forall k :: k in keys ==> k in m
  {
    if keys == [] then 0 else m[keys[0]] + SumAt(m, keys[1..])
  }

  /** Over distinct keys, one more document adds one to the sum exactly when its type is among them. */
  lemma {:induction false} CountEventsStep(docs: seq<Doc>, keys: seq<string>)
    requires docs != []
    requires forall i, j :: 0 <= i < j < |keys| ==> keys[i] != keys[j]
    ensures CountEvents(docs, keys) ==
              CountEvents(docs[..|docs| - 1], keys) + (if docs[|docs| - 1].event in keys then 1 else 0)
  {
    if keys != [] {
      CountEventsStep(docs, keys[1..]);
      assert docs[|docs| - 1].event in keys <==>
               docs[|docs| - 1].event == keys[0] || docs[|docs| - 1].event in keys[1..];
    }
  }

  /** When every document's type is among distinct `keys`, the counts of `keys` add up to the number of documents. */
  lemma {:induction false} CountEventsTotal(docs: seq<Doc>, keys: seq<string>)
    requires forall i, j :: 0 <= i < j < |keys| ==> keys[i] != keys[j]
    requires forall i :: 0 <= i < |docs| ==> docs[i].event in keys
    ensures CountEvents(docs, keys) == |docs|
  {
    if docs == [] {
      if keys != [] {
        CountEventsEmpty(keys);
      }
    } else {
      CountEventsTotal(docs[..|docs| - 1], keys);
      CountEventsStep(docs, keys);
    }
  }

  lemma {:induction false} CountEventsEmpty(keys: seq<string>)
    ensures CountEvents([], keys) == 0
  {
    if keys != [] {
      CountEventsEmpty(keys[1..]);
    }
  }

  /** A faithful aggregation fills each taxonomy key with that type's document count. */
  lemma {:induction false} FilledCountsAreTrue(buckets: seq<Bucket>, docs: seq<Doc>, keys: seq<string>)
    requires Faithful(buckets, docs)
    requires forall k :: k in keys ==> k in Taxonomy
    ensures forall k :: k in keys ==> k in FillTaxonomy(BucketTable(buckets))
    ensures SumAt(FillTaxonomy(BucketTable(buckets)), keys) == CountEvents(docs, keys)
  {
    if keys != [] {
      FilledCountsAreTrue(buckets, docs, keys[1..]);
    }
  }

  /**
   * With a faithful aggregation and documents whose types all lie in the
   * taxonomy, the five filled counts add up to the number of documents.
   */
  lemma CountsSumToTotal(buckets: seq<Bucket>, docs: seq<Doc>)
    requires Faithful(buckets, docs)
    requires forall i :: 0 <= i < |docs| ==> InTaxonomy(docs[i].event)
    ensures SumAt(FillTaxonomy(BucketTable(buckets)), Taxonomy) == |docs|
  {
    TaxonomyDistinct();
    FilledCountsAreTrue(buckets, docs, Taxonomy);
    CountEventsTotal(docs, Taxonomy);
  }

  /** A stored document is counted under its type. */
  lemma {:induction false} StoredIsCounted(docs: seq<Doc>, d: Doc)
    requires d in docs
    ensures CountEvent(docs, d.event) >= 1
  {
    var n := |docs| - 1;
    if docs[n] != d {
      assert docs == docs[..n] + [docs[n]];
      assert d in docs[..n];
      StoredIsCounted(docs[..n], d);
    }
  }

  /** A stored document of a known type is counted under that type by a faithful aggregation. */
  lemma StoredDocumentCounted(buckets: seq<Bucket>, docs: seq<Doc>, d: Doc)
    requires Faithful(buckets, docs)
    requires d in docs && InTaxonomy(d.event)
    ensures FillTaxonomy(BucketTable(buckets))[d.event] >= 1
  {
    StoredIsCounted(docs, d);
  }

  // ---------------------------------------------------------------------
  // Event distribution

  /** Rows follow the taxonomy order; column `u` holds urgency `u + 1`. */
  type Histogram = seq<seq<nat>>

  /** Number of documents of type `e` and urgency `u` (counted from the back). */
  function CountCell(docs: seq<Doc>, e: string, u: int): nat
  {
    if docs == [] then 0
    else
      var last := docs[|docs| - 1];
      CountCell(docs[..|docs| - 1], e, u) + (if last.event == e && last.urgency == u then 1 else 0)
  }

  /** Counting one more document adds one to its own cell and nothing to any other. */
  lemma CountCellStep(docs: seq<Doc>, i: nat, e: string, u: int)
    requires i < |docs|
    ensures CountCell(docs[..i + 1], e, u)
            == CountCell(docs[..i], e, u) + if docs[i].event == e && docs[i].urgency == u then 1 else 0
  {
    assert docs[..i + 1][..i] == docs[..i];
  }

  /** A 5 by 5 table whose cell (e, u) holds the number of documents of the e-th type and urgency u + 1. */
  predicate TabulatesCells(h: Histogram, docs: seq<Doc>)
  {
    && |h| == 5
    && (forall e :: 0 <= e < 5 ==> |h[e]| == 5)
    && (forall e, u :: 0 <= e < 5 && 0 <= u < 5 ==> h[e][u] == CountCell(docs, Taxonomy[e], u + 1))
  }

  /** Do all documents carry a type from the taxonomy? */
  predicate AllKnown(docs: seq<Doc>)
  {
    forall i :: 0 <= i < |docs| ==> InTaxonomy(docs[i].event)
  }

  /**
   * The counting loop of the distribution endpoint: a zeroed 5 by 5 table,
   * one increment per document. A document whose type is outside the
   * taxonomy makes the row lookup fail, so there is no table (`None`).
   */
  method Tally(docs: seq<Doc>) returns (r: Option<Histogram>)
    ensures r.Some? <==> AllKnown(docs)
    ensures r.Some? ==> TabulatesCells(r.value, docs)
  {
    var table := new nat[5, 5]((e, u) => 0);
    var i := 0;
    while i < |docs|
      invariant 0 <= i <= |docs|
      invariant AllKnown(docs[..i])
      invariant forall e, u :: 0 <= e < 5 && 0 <= u < 5 ==> table[e, u] == CountCell(docs[..i], Taxonomy[e], u + 1)
    {
      var row := EventIndex(docs[i].event);
      if row.None? {
        return None;
      }
      var u := docs[i].urgency;
      if 1 <= u <= 5 {
        table[row.value, u - 1] := table[row.value, u - 1] + 1;
      }
      TaxonomyDistinct();
      forall e, v | 0 <= e < 5 && 0 <= v < 5
        ensures table[e, v] == CountCell(docs[..i + 1], Taxonomy[e], v + 1)
      {
        CountCellStep(docs, i, Taxonomy[e], v + 1);
      }
      assert docs[..i + 1][..i] == docs[..i];
      i := i + 1;
    }
    assert docs[..i] == docs;
    var h := Snapshot(table);
    r := Some(h);
  }

  /** The rows of a 5 by 5 table, read out as a value. */
  method Snapshot(table: array2<nat>) returns (h: Histogram)
    requires table.Length0 == 5 && table.Length1 == 5
    ensures |h| == 5 && forall e :: 0 <= e < 5 ==> |h[e]| == 5
    ensures forall e, u :: 0 <= e < 5 && 0 <= u < 5 ==> h[e][u] == table[e, u]
  {
    h := seq(5, e requires 0 <= e < 5 reads table => seq(5, u requires 0 <= u < 5 reads table => table[e, u]));
  }

  /** The search options of the distribution endpoint: from the day one week back to today. */
  function LastWeek(now: int): (opts: SearchOptions)
    ensures opts.startDate == Some(DayOf(now) - 7) && opts.endDate == Some(DayOf(now))
    ensures opts.eventType.None? && opts.sourceType.None?
  {
    DayOfShift(now, -7);
    SearchOptions(Some(DayOf(now - 7 * MsPerDay)), Some(DayOf(now)), None, None)
  }

  /**
   * `/geteventdistribution`: tally the documents found by the last-week
   * search; `None` when one of them has an unknown type.
   */
  method EventDistribution(store: Store, now: int) returns (r: Option<Histogram>)
    ensures r.Some? <==> AllKnown(Search(store, LastWeek(now)))
    ensures r.Some? ==> TabulatesCells(r.value, Search(store, LastWeek(now)))
  {
    var docs := Search(store, LastWeek(now));
    r := Tally(docs);
  }

  /** The sum of one row: the type's documents with urgency 1 to 5. */
  function RowTotal(h: Histogram, e: nat): nat
    requires e < |h| && |h[e]| == 5
  {
    h[e][0] + h[e][1] + h[e][2] + h[e][3] + h[e][4]
  }

  /** The sum of the whole table. */
  function GridTotal(h: Histogram): nat
    requires |h| == 5 && forall e :: 0 <= e < 5 ==> |h[e]| == 5
  {
    RowTotal(h, 0) + RowTotal(h, 1) + RowTotal(h, 2) + RowTotal(h, 3) + RowTotal(h, 4)
  }

  /** Do all documents carry an urgency from 1 to 5? */
  predicate UrgenciesInRange(docs: seq<Doc>)
  {
    forall i :: 0 <= i < |docs| ==> 1 <= docs[i].urgency <= 5
  }

  /** When every urgency is in range, a type's five cells add up to its document count. */
  lemma {:induction false} CellsCountEvent(docs: seq<Doc>, e: string)
    requires UrgenciesInRange(docs)
    ensures CountCell(docs, e, 1) + CountCell(docs, e, 2) + CountCell(docs, e, 3)
            + CountCell(docs, e, 4) + CountCell(docs, e, 5) == CountEvent(docs, e)
  {
    if docs != [] {
      CellsCountEvent(docs[..|docs| - 1], e);
    }
  }

  /**
   * When every document has a known type and an urgency from 1 to 5, the
   * cells of the distribution table add up to the number of documents.
   */
  lemma TableTotal(h: Histogram, docs: seq<Doc>)
    requires TabulatesCells(h, docs)
    requires AllKnown(docs) && UrgenciesInRange(docs)
    ensures GridTotal(h) == |docs|
  {
    TaxonomyDistinct();
    CellsCountEvent(docs, Taxonomy[0]);
    CellsCountEvent(docs, Taxonomy[1]);
    CellsCountEvent(docs, Taxonomy[2]);
    CellsCountEvent(docs, Taxonomy[3]);
    CellsCountEvent(docs, Taxonomy[4]);
    CountEventsTotal(docs, Taxonomy);
    CountEventsOfTaxonomy(docs);
  }

  /** The taxonomy sum written out term by term. */
  lemma CountEventsOfTaxonomy(docs: seq<Doc>)
    ensures CountEvents(docs, Taxonomy) == CountEvent(docs, Taxonomy[0]) + CountEvent(docs, Taxonomy[1])
      + CountEvent(docs, Taxonomy[2]) + CountEvent(docs, Taxonomy[3]) + CountEvent(docs, Taxonomy[4])
  {
    var t := Taxonomy;
    assert t[1..][0] == t[1] && t[1..][1..] == t[2..];
    assert t[2..][0] == t[2] && t[2..][1..] == t[3..];
    assert t[3..][0] == t[3] && t[3..][1..] == t[4..];
    assert t[4..][0] == t[4] && t[4..][1..] == [];
    assert CountEvents(docs, t[4..]) == CountEvent(docs, t[4]);
    assert CountEvents(docs, t[3..]) == CountEvent(docs, t[3]) + CountEvents(docs, t[4..]);
    assert CountEvents(docs, t[2..]) == CountEvent(docs, t[2]) + CountEvents(docs, t[3..]);
    assert CountEvents(docs, t[1..]) == CountEvent(docs, t[1]) + CountEvents(docs, t[2..]);
  }
}
