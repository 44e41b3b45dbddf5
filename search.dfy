/**
 * Filtered search over the `space` index: the conjunctive filter the
 * service builds from the optional date range, event type and source, and
 * the capped result list it returns.
 */
module MessageSearch {
  import opened Documents

  /** The largest number of documents one search returns. */
  const MaxHits: int := 1000

  /**
   * The query parameters. A date is a calendar day (days since the epoch);
   * an absent date parameter and an empty one are both falsy in the service
   * and are both `None` here. Event type and source stay text: an empty
   * string, `None` and "All" all leave that criterion out.
   */
  datatype SearchOptions = SearchOptions(
    startDate: Option<int>,
    endDate: Option<int>,
    eventType: Option<string>,
    sourceType: Option<string>)

  /** One entry of the filter's `must` list. */
  datatype Clause =
    | DateRange(gte: int, lte: int)
    | EventIs(event: string)
    | SourceIs(source: string)

  /** First second of a calendar day: `<day> 00:00:00 UTC`. */
  function DayStart(day: int): int
  {
    day * SecondsPerDay
  }

  /** Last second of a calendar day: `<day> 23:59:59 UTC`. */
  function DayEnd(day: int): int
  {
    day * SecondsPerDay + SecondsPerDay - 1
  }

  /** The date range is applied only when both ends are given. */
  predicate HasDates(opts: SearchOptions)
  {
    opts.startDate.Some? && opts.endDate.Some?
  }

  /** A text criterion is applied only when it is given, non-empty and not "All". */
  predicate Applies(p: Option<string>)
  {
    p.Some? && p.value != "" && p.value != All
  }

  /** Is `c` a clause that these options ask for, with the bounds they imply? */
  predicate Requested(opts: SearchOptions, c: Clause)
  {
    match c
    case DateRange(lo, hi) =>
      HasDates(opts) && lo == DayStart(opts.startDate.value) && hi == DayEnd(opts.endDate.value)
    case EventIs(e) => Applies(opts.eventType) && e == opts.eventType.value
    case SourceIs(s) => Applies(opts.sourceType) && s == opts.sourceType.value
  }

  /** The `must` list built from the options: date range, then event, then source. */
  function Filter(opts: SearchOptions): (must: seq<Clause>)
    ensures |must| <= 3
    ensures forall c :: c in must ==> Requested(opts, c)
    ensures HasDates(opts) ==> DateRange(DayStart(opts.startDate.value), DayEnd(opts.endDate.value)) in must
    ensures Applies(opts.eventType) ==> EventIs(opts.eventType.value) in must
    ensures Applies(opts.sourceType) ==> SourceIs(opts.sourceType.value) in must
  {
    var dates := if HasDates(opts) then [DateRange(DayStart(opts.startDate.value), DayEnd(opts.endDate.value))] else [];
    var events := if Applies(opts.eventType) then [EventIs(opts.eventType.value)] else [];
    var sources := if Applies(opts.sourceType) then [SourceIs(opts.sourceType.value)] else [];
    var must := dates + events + sources;
    assert forall c :: c in must ==> c in dates || c in events || c in sources;
    must
  }

  /** The query builder as written: start from an empty `must` list and push each clause the options ask for. */
  method BuildMust(opts: SearchOptions) returns (must: seq<Clause>)
    ensures must == Filter(opts)
  {
    must := [];
    if HasDates(opts) {
      must := must + [DateRange(DayStart(opts.startDate.value), DayEnd(opts.endDate.value))];
    }
    if Applies(opts.eventType) {
      must := must + [EventIs(opts.eventType.value)];
    }
    if Applies(opts.sourceType) {
      must := must + [SourceIs(opts.sourceType.value)];
    }
  }

  /** Does a document satisfy one clause? Phrase matching is taken as equality. */
  predicate Satisfies(d: Doc, c: Clause)
  {
    match c
    case DateRange(lo, hi) => lo <= d.date <= hi
    case EventIs(e) => d.event == e
    case SourceIs(s) => d.source == s
  }

  /** The clauses are conjunctive: a document matches when it satisfies all of them. */
  predicate MatchesAll(d: Doc, must: seq<Clause>)
  {
    forall c :: c in must ==> Satisfies(d, c)
  }

  /** The documents of `docs` that match, in store order. */
  function Matching(docs: seq<Doc>, must: seq<Clause>): (r: seq<Doc>)
    ensures |r| <= |docs|
    ensures forall d :: d in r <==> d in docs && MatchesAll(d, must)
  {
    if docs == [] then []
    else if MatchesAll(docs[0], must) then [docs[0]] + Matching(docs[1..], must)
    else Matching(docs[1..], must)
  }

  /** The hits keep every stored copy of a matching document and no copy of any other. */
  lemma {:induction false} MatchingCounts(docs: seq<Doc>, must: seq<Clause>)
    ensures forall d :: multiset(Matching(docs, must))[d] ==
                          if MatchesAll(d, must) then multiset(docs)[d] else 0
  {
    if docs != [] {
      MatchingCounts(docs[1..], must);
      assert docs == [docs[0]] + docs[1..];
    }
  }

  /**
   * `getMessages`: at most `MaxHits` matching documents; an unreachable
   * store yields the empty list, never an error.
   */
  function Search(store: Store, opts: SearchOptions): (r: seq<Doc>)
    ensures store.Offline? ==> r == []
    ensures |r| <= MaxHits
    ensures forall d :: d in r ==> store.Online? && d in store.docs && MatchesAll(d, Filter(opts))
    ensures store.Online? ==> |r| == if |Matching(store.docs, Filter(opts))| < MaxHits
                                     then |Matching(store.docs, Filter(opts))| else MaxHits
    ensures store.Online? && |Matching(store.docs, Filter(opts))| <= MaxHits ==>
              forall d :: d in store.docs && MatchesAll(d, Filter(opts)) ==> d in r
    ensures store.Online? ==> multiset(r) <= multiset(Matching(store.docs, Filter(opts)))
    ensures store.Online? && |Matching(store.docs, Filter(opts))| <= MaxHits ==>
              multiset(r) == multiset(Matching(store.docs, Filter(opts)))
  {
    match store
    case Offline => []
    case Online(docs) =>
      var hits := Matching(docs, Filter(opts));
      if |hits| <= MaxHits then hits
      else
        assert hits == hits[..MaxHits] + hits[MaxHits..];
        hits[..MaxHits]
  }

  /** A document's date lies in the range built from two days exactly when its calendar day lies between them: the whole end day is included. */
  lemma DateRangeCoversWholeDays(d: Doc, startDay: int, endDay: int)
    ensures Satisfies(d, DateRange(DayStart(startDay), DayEnd(endDay)))
            <==> startDay <= d.date / SecondsPerDay <= endDay
  {
    StartsOnOrAfterDay(d.date, startDay);
    EndsOnOrBeforeDay(d.date, endDay);
  }

  /** A time in seconds is at or after the start of a day exactly when its day is that day or later. */
  lemma StartsOnOrAfterDay(t: int, day: int)
    ensures DayStart(day) <= t <==> day <= t / SecondsPerDay
  {
    var q := t / SecondsPerDay;
    assert q * SecondsPerDay <= t < q * SecondsPerDay + SecondsPerDay;
    if DayStart(day) <= t {
      ScaledLess(day, q + 1, SecondsPerDay);
    }
    if day <= q {
      ScaledLe(day, q, SecondsPerDay);
    }
  }

  /** A time in seconds is at or before the last second of a day exactly when its day is that day or earlier. */
  lemma EndsOnOrBeforeDay(t: int, day: int)
    ensures t <= DayEnd(day) <==> t / SecondsPerDay <= day
  {
    var q := t / SecondsPerDay;
    assert q * SecondsPerDay <= t < q * SecondsPerDay + SecondsPerDay;
    if t <= DayEnd(day) {
      ScaledLess(q, day + 1, SecondsPerDay);
    }
    if q <= day {
      ScaledLe(q + 1, day + 1, SecondsPerDay);
    }
  }

  /** "All" as event type or source is the same as leaving the parameter out. */
  lemma AllIsOmission(opts: SearchOptions)
    ensures Filter(opts.(eventType := Some(All))) == Filter(opts.(eventType := None))
    ensures Filter(opts.(sourceType := Some(All))) == Filter(opts.(sourceType := None))
  {
  }

  /** A stored document of a known type is found by searching for its type, unless the search is capped. */
  lemma SearchByEventFinds(docs: seq<Doc>, d: Doc)
    requires d in docs && d.event != "" && d.event != All
    requires |Matching(docs, Filter(SearchOptions(None, None, Some(d.event), None)))| <= MaxHits
    ensures d in Search(Online(docs), SearchOptions(None, None, Some(d.event), None))
  {
    var opts := SearchOptions(None, None, Some(d.event), None);
    assert Filter(opts) == [EventIs(d.event)];
  }
}
