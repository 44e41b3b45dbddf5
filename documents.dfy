/**
 * The records shared by the consumer, the query service and the relay: the
 * stored event document, the fixed event taxonomy, the document store as the
 * query service sees it, and the arithmetic that turns instants into the UTC
 * calendar days the service passes around as `YYYY-MM-DD` strings.
 */
module Documents {

  datatype Option<T> = None | Some(value: T)

  /** Milliseconds in one day; instants are milliseconds since the epoch. */
  const MsPerDay: int := 24 * 60 * 60 * 1000

  /** Seconds in one day; a document's reported `date` is in seconds since the epoch. */
  const SecondsPerDay: int := 24 * 60 * 60

  /** The five event types, in the order the service lists them. */
  const Taxonomy: seq<string> := ["GRB", "Apparent Brightness Rise", "UV Rise", "X-Ray Rise", "Comet"]

  /** The wildcard value of the event and source search parameters. */
  const All: string := "All"

  /**
   * A stored event document. `date` is the producer-reported date (seconds
   * since the epoch, UTC); `timestamp` is the `@timestamp` the consumer
   * stamps (milliseconds since the epoch); `extra` holds every other
   * producer field, each value kept as its JSON text.
   */
  datatype Doc = Doc(
    event: string,
    source: string,
    urgency: int,
    date: int,
    timestamp: int,
    extra: map<string, string>)

  /** The field names a document carries outside `extra`: the schema fields and `@timestamp`. */
  const FieldKeys: set<string> := {"event", "source", "urgency", "date", "@timestamp"}

  /**
   * `extra` holds only the other fields: a JSON object has each key once, so
   * no key of `extra` names a field that has its own place.
   */
  predicate ExtraApart(extra: map<string, string>)
  {
    extra.Keys !! FieldKeys
  }

  /** The `space` index as a query sees it: its documents, or a failed request. */
  datatype Store = Online(docs: seq<Doc>) | Offline

  /** The UTC calendar day (days since the epoch) of an instant, as `toISOString().split('T')[0]` names it. */
  function DayOf(t: int): (d: int)
    ensures d * MsPerDay <= t < (d + 1) * MsPerDay
  {
    t / MsPerDay
  }

  /** Shifting an instant by whole days shifts its calendar day by the same count. */
  lemma DayOfShift(t: int, k: int)
    ensures DayOf(t + k * MsPerDay) == DayOf(t) + k
  {
    var d := DayOf(t);
    assert (d + k) * MsPerDay <= t + k * MsPerDay < (d + k + 1) * MsPerDay;
    DayOfUnique(t + k * MsPerDay, d + k);
  }

  /** The calendar day of an instant is the only day whose span contains it. */
  lemma DayOfUnique(t: int, d: int)
    requires d * MsPerDay <= t < (d + 1) * MsPerDay
    ensures DayOf(t) == d
  {
    var e := DayOf(t);
    ScaledLess(e, d + 1, MsPerDay);
    ScaledLess(d, e + 1, MsPerDay);
  }

  /** Comparing two spans of whole units compares their unit counts. */
  lemma ScaledLess(a: int, b: int, unit: int)
    requires unit > 0 && a * unit < b * unit
    ensures a < b
  {
    assert (b - a) * unit == b * unit - a * unit;
  }

  /** More whole units make a span no shorter. */
  lemma ScaledLe(a: int, b: int, unit: int)
    requires unit > 0 && a <= b
    ensures a * unit <= b * unit
  {
    assert (b - a) * unit == b * unit - a * unit;
  }

  /** Calendar days never run backwards. */
  lemma DayOfMonotone(s: int, t: int)
    requires s <= t
    ensures DayOf(s) <= DayOf(t)
  {
    ScaledLess(DayOf(s), DayOf(t) + 1, MsPerDay);
  }

  /** Is `e` one of the five known event types? */
  predicate InTaxonomy(e: string)
  {
    e in Taxonomy
  }

  /** Position of a known event type in the taxonomy. */
  function EventIndex(e: string): (i: Option<nat>)
    ensures i.Some? <==> InTaxonomy(e)
    ensures i.Some? ==> i.value < |Taxonomy| && Taxonomy[i.value] == e
  {
    if e == Taxonomy[0] then Some(0)
    else if e == Taxonomy[1] then Some(1)
    else if e == Taxonomy[2] then Some(2)
    else if e == Taxonomy[3] then Some(3)
    else if e == Taxonomy[4] then Some(4)
    else None
  }

  /** The taxonomy lists five distinct names. */
  lemma TaxonomyDistinct()
    ensures |Taxonomy| == 5
    ensures forall i, j :: 0 <= i < j < |Taxonomy| ==> Taxonomy[i] != Taxonomy[j]
  {
  }
}
