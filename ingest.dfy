/**
 * The ingestion consumer: every delivered broker message is parsed, stamped
 * with the consumption time as `@timestamp` and written to the `space`
 * index, one message at a time in delivery order.
 */
module Ingest {
  import opened Documents
  import Recency

  /**
   * A parsed producer payload: the schema fields, the JSON text of the
   * `@timestamp` the producer may have put in it, and every other field it
   * carries.
   */
  datatype Message = Message(
    event: string,
    source: string,
    urgency: int,
    date: int,
    producerTimestamp: Option<string>,
    extra: map<string, string>)

  /** A message as `JSON.parse` yields it: each key once, so `extra` repeats no field that has its own place. */
  type ProducerMessage = m: Message | ExtraApart(m.extra) witness Message("", "", 0, 0, None, map[])

  /** The result of `JSON.parse` on a message value. */
  datatype Payload = Malformed | Parsed(msg: ProducerMessage)

  /**
   * One delivery as the consumer handles it: the parsed value, the clock
   * reading when indexing starts, and whether the index accepts the write.
   */
  datatype Delivery = Delivery(value: Payload, clock: int, accepted: bool)

  /** How the message handler ends: normally, or by the parse error escaping it. */
  datatype Outcome = Handled | Threw

  /**
   * `{ ...message, '@timestamp': timestamp }`: the producer's fields with
   * `@timestamp` set to the consumption time; the key comes after the
   * spread, so a producer-supplied `@timestamp` is overwritten.
   */
  function Stamp(m: ProducerMessage, now: int): (d: Doc)
    ensures d.timestamp == now
    ensures d.event == m.event && d.source == m.source && d.urgency == m.urgency
    ensures d.date == m.date && d.extra == m.extra
    ensures "@timestamp" !in d.extra && ExtraApart(d.extra)
  {
    Doc(m.event, m.source, m.urgency, m.date, now, m.extra)
  }

  /** The producer payload a stored document came from, without any producer `@timestamp`. */
  function Unstamp(d: Doc): Message
  {
    Message(d.event, d.source, d.urgency, d.date, None, d.extra)
  }

  /**
   * Stamping loses nothing but the producer's `@timestamp`: two messages
   * stamp to the same document at the same time exactly when they differ at
   * most in that field, and the stamped document gives the message back.
   */
  lemma StampKeepsProducerFields(m1: ProducerMessage, m2: ProducerMessage, now: int)
    ensures Stamp(m1, now) == Stamp(m2, now) <==>
              m1.(producerTimestamp := None) == m2.(producerTimestamp := None)
    ensures Unstamp(Stamp(m1, now)) == m1.(producerTimestamp := None)
    ensures Stamp(Unstamp(Stamp(m1, now)), now) == Stamp(m1, now)
  {
    if Stamp(m1, now) == Stamp(m2, now) {
      assert Unstamp(Stamp(m1, now)) == Unstamp(Stamp(m2, now));
    }
  }

  /** The `space` index, as the consumer writes it: documents in write order. */
  class SpaceIndex {
    var docs: seq<Doc>

    constructor ()
      ensures docs == []
    {
      docs := [];
    }
  }

  /** The documents one delivery leaves in the index. */
  function StoredBy(d: Delivery): seq<Doc>
  {
    if d.value.Parsed? && d.accepted then [Stamp(d.value.msg, d.clock)] else []
  }

  /** The documents a run of deliveries leaves in the index, in delivery order. */
  function Stored(ds: seq<Delivery>): seq<Doc>
  {
    if ds == [] then [] else Stored(ds[..|ds| - 1]) + StoredBy(ds[|ds| - 1])
  }

  /**
   * `indexDocument`: stamp with the current time and write; a rejected write
   * is caught and logged, so no error leaves this method.
   */
  method IndexDocument(index: SpaceIndex, m: ProducerMessage, now: int, accepted: bool)
    modifies index
    ensures index.docs == old(index.docs) + if accepted then [Stamp(m, now)] else []
  {
    var indexed := Stamp(m, now);
    if accepted {
      index.docs := index.docs + [indexed];
    }
  }

  /**
   * `eachMessage`: parse, then await indexing. A value that does not parse
   * throws before anything is written.
   */
  method EachMessage(index: SpaceIndex, d: Delivery) returns (outcome: Outcome)
    modifies index
    ensures outcome == Threw <==> d.value.Malformed?
    ensures index.docs == old(index.docs) + StoredBy(d)
  {
    if d.value.Malformed? {
      return Threw;
    }
    IndexDocument(index, d.value.msg, d.clock, d.accepted);
    outcome := Handled;
  }

  /**
   * The consumer's run loop: each delivery's handler finishes, indexing
   * included, before the next one starts.
   */
  method Consume(index: SpaceIndex, ds: seq<Delivery>) returns (outcomes: seq<Outcome>)
    modifies index
    ensures index.docs == old(index.docs) + Stored(ds)
    ensures |outcomes| == |ds|
    ensures forall i :: 0 <= i < |ds| ==> (outcomes[i] == Threw <==> ds[i].value.Malformed?)
  {
    outcomes := [];
    for i := 0 to |ds|
      invariant index.docs == old(index.docs) + Stored(ds[..i])
      invariant |outcomes| == i
      invariant forall k :: 0 <= k < i ==> (outcomes[k] == Threw <==> ds[k].value.Malformed?)
    {
      var outcome := EachMessage(index, ds[i]);
      assert ds[..i + 1][..i] == ds[..i];
      outcomes := outcomes + [outcome];
    }
    assert ds[..|ds|] == ds;
  }

  /** Indexing is sequential: the documents of two runs are those of the first followed by those of the second. */
  lemma {:induction false} StoredConcat(a: seq<Delivery>, b: seq<Delivery>)
    ensures Stored(a + b) == Stored(a) + Stored(b)
  {
    if b == [] {
      assert a + b == a;
    } else {
      var n := |b| - 1;
      assert (a + b)[..|a + b| - 1] == a + b[..n];
      StoredConcat(a, b[..n]);
    }
  }

  /** The number of deliveries whose value parses and whose write the index accepts. */
  function ParsedAndAccepted(ds: seq<Delivery>): nat
  {
    if ds == [] then 0
    else ParsedAndAccepted(ds[..|ds| - 1]) + if ds[|ds| - 1].value.Parsed? && ds[|ds| - 1].accepted then 1 else 0
  }

  /** One document per parsed and accepted delivery. */
  lemma {:induction false} StoredCount(ds: seq<Delivery>)
    ensures |Stored(ds)| == ParsedAndAccepted(ds)
  {
    if ds != [] {
      StoredCount(ds[..|ds| - 1]);
    }
  }

  /** Timestamps strictly increase along the documents. */
  predicate StrictlyIncreasing(docs: seq<Doc>)
  {
    forall i, j :: 0 <= i < j < |docs| ==> docs[i].timestamp < docs[j].timestamp
  }

  /** When no delivery's clock reading is later than `bound`, no stored timestamp is later than `bound`. */
  lemma {:induction false} StoredTimestampsBounded(ds: seq<Delivery>, bound: int)
    requires forall i :: 0 <= i < |ds| ==> ds[i].clock <= bound
    ensures forall d :: d in Stored(ds) ==> d.timestamp <= bound
  {
    if ds != [] {
      StoredTimestampsBounded(ds[..|ds| - 1], bound);
    }
  }

  /** With a strictly increasing clock, stored timestamps strictly increase in write order. */
  lemma {:induction false} StoredIncreasing(ds: seq<Delivery>)
    requires forall i, j :: 0 <= i < j < |ds| ==> ds[i].clock < ds[j].clock
    ensures StrictlyIncreasing(Stored(ds))
  {
    if ds != [] {
      var n := |ds| - 1;
      StoredIncreasing(ds[..n]);
      StoredTimestampsBounded(ds[..n], ds[n].clock - 1);
    }
  }

  /** When timestamps strictly increase in write order, the last document is the one written last. */
  lemma LastIsLatestWrite(docs: seq<Doc>)
    requires docs != [] && StrictlyIncreasing(docs)
    ensures Recency.Last(Online(docs)) == Some(docs[|docs| - 1])
  {
    var n := |docs| - 1;
    var r := Recency.Last(Online(docs));
    assert r.Some? && r.value in docs;
    assert docs[n] in docs;
    var k :| 0 <= k < |docs| && docs[k] == r.value;
    assert docs[n].timestamp <= docs[k].timestamp;
  }

  /** A document strictly newer than every other stored document is the one the last-document query returns. */
  lemma UniqueNewestIsLast(docs: seq<Doc>, x: Doc)
    requires x in docs
    requires forall d :: d in docs && d != x ==> d.timestamp < x.timestamp
    ensures Recency.Last(Online(docs)) == Some(x)
  {
    var r := Recency.Last(Online(docs));
    assert r.Some? && r.value in docs && x.timestamp <= r.value.timestamp;
  }

  /**
   * Ingesting into an index whose documents are all older than the clock,
   * with a strictly increasing clock, leaves the last-written document as
   * the one the last-document query returns.
   */
  lemma IngestThenLast(old_docs: seq<Doc>, ds: seq<Delivery>)
    requires forall i, j :: 0 <= i < j < |ds| ==> ds[i].clock < ds[j].clock
    requires forall d, i :: d in old_docs && 0 <= i < |ds| ==> d.timestamp < ds[i].clock
    requires Stored(ds) != []
    ensures Recency.Last(Online(old_docs + Stored(ds))) == Some(Stored(ds)[|Stored(ds)| - 1])
  {
    var s := Stored(ds);
    var n := |s| - 1;
    var all := old_docs + s;
    StoredIncreasing(ds);
    StoredAtClocks(ds);
    assert s[n] in s;
    var k :| 0 <= k < |ds| && s[n].timestamp == ds[k].clock;
    forall d | d in all && d != s[n]
      ensures d.timestamp < s[n].timestamp
    {
      if d !in old_docs {
        var j :| 0 <= j < |s| && s[j] == d;
      }
    }
    UniqueNewestIsLast(all, s[n]);
  }

  /** Every stored timestamp is the clock reading of some delivery. */
  lemma {:induction false} StoredAtClocks(ds: seq<Delivery>)
    ensures forall d :: d in Stored(ds) ==> exists k :: 0 <= k < |ds| && d.timestamp == ds[k].clock
  {
    if ds != [] {
      var n := |ds| - 1;
      StoredAtClocks(ds[..n]);
      forall d | d in Stored(ds)
        ensures exists k :: 0 <= k < |ds| && d.timestamp == ds[k].clock
      {
        if d in Stored(ds[..n]) {
          var k :| 0 <= k < n && d.timestamp == ds[..n][k].clock;
          assert ds[k] == ds[..n][k];
        } else {
          assert d.timestamp == ds[n].clock;
        }
      }
    }
  }
}
