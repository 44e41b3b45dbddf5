/**
 * The recency queries: the newest document, and the ten documents that
 * precede it. Both ask the index for its documents sorted by `@timestamp`
 * descending; that sort is specified here by an insertion sort on values.
 */
module Recency {
  import opened Documents

  /** How many documents the recent-documents query fetches before dropping the first. */
  const RecentFetch: int := 11

  /** Timestamps never increase along `s`. */
  predicate NewestFirst(s: seq<Doc>)
  {
    forall i, j :: 0 <= i < j < |s| ==> s[i].timestamp >= s[j].timestamp
  }

  /** Places `d` into a list, ahead of the first document not newer than it. */
  function InsertByTimestamp(d: Doc, s: seq<Doc>): (r: seq<Doc>)
    ensures |r| == |s| + 1
    ensures r[0] == d || (s != [] && r[0] == s[0])
    ensures multiset(r) == multiset(s) + multiset{d}
  {
    if s == [] || d.timestamp >= s[0].timestamp then [d] + s
    else
      assert s == [s[0]] + s[1..];
      [s[0]] + InsertByTimestamp(d, s[1..])
  }

  /** Inserting into a newest-first list keeps it newest first. */
  lemma {:induction false} InsertKeepsNewestFirst(d: Doc, s: seq<Doc>)
    requires NewestFirst(s)
    ensures NewestFirst(InsertByTimestamp(d, s))
  {
    var r := InsertByTimestamp(d, s);
    if s == [] || d.timestamp >= s[0].timestamp {
      forall i, j | 0 <= i < j < |r|
        ensures r[i].timestamp >= r[j].timestamp
      {
        if i == 0 {
          assert r[j] == s[j - 1];
          assert s[0].timestamp >= s[j - 1].timestamp;
        } else {
          assert r[i] == s[i - 1] && r[j] == s[j - 1];
        }
      }
    } else {
      var rest := InsertByTimestamp(d, s[1..]);
      InsertKeepsNewestFirst(d, s[1..]);
      assert r == [s[0]] + rest;
      assert rest[0].timestamp <= s[0].timestamp;
      forall i, j | 0 <= i < j < |r|
        ensures r[i].timestamp >= r[j].timestamp
      {
        if i == 0 {
          assert r[j] == rest[j - 1];
          assert rest[0].timestamp >= rest[j - 1].timestamp;
        } else {
          assert r[i] == rest[i - 1] && r[j] == rest[j - 1];
        }
      }
    }
  }

  /** The store's documents ordered by `@timestamp`, newest first. */
  function SortByTimestamp(docs: seq<Doc>): (r: seq<Doc>)
    ensures |r| == |docs|
    ensures multiset(r) == multiset(docs)
  {
    if docs == [] then []
    else
      assert docs == [docs[0]] + docs[1..];
      InsertByTimestamp(docs[0], SortByTimestamp(docs[1..]))
  }

  /** The sort puts the documents newest first. */
  lemma {:induction false} SortIsNewestFirst(docs: seq<Doc>)
    ensures NewestFirst(SortByTimestamp(docs))
  {
    if docs != [] {
      SortIsNewestFirst(docs[1..]);
      InsertKeepsNewestFirst(docs[0], SortByTimestamp(docs[1..]));
    }
  }

  /** The first `k` hits of a search sorted by `@timestamp` descending. */
  function Top(docs: seq<Doc>, k: nat): (r: seq<Doc>)
    ensures |r| == if k < |docs| then k else |docs|
    ensures r == SortByTimestamp(docs)[..|r|]
  {
    var sorted := SortByTimestamp(docs);
    if k < |sorted| then sorted[..k] else sorted
  }

  /** The head of the sorted documents is at least as new as every document. */
  lemma SortedHeadIsNewest(docs: seq<Doc>)
    requires docs != []
    ensures forall d :: d in docs ==> d.timestamp <= SortByTimestamp(docs)[0].timestamp
  {
    var sorted := SortByTimestamp(docs);
    SortIsNewestFirst(docs);
    forall d | d in docs
      ensures d.timestamp <= sorted[0].timestamp
    {
      assert d in multiset(docs);
      assert d in multiset(sorted);
      var j :| 0 <= j < |sorted| && sorted[j] == d;
    }
  }

  /**
   * `getLastMessage`: the document with the greatest `@timestamp`; null when
   * the index is empty (the first hit is missing) or cannot be reached.
   */
  function Last(store: Store): (r: Option<Doc>)
    ensures r.Some? <==> store.Online? && store.docs != []
    ensures r.Some? ==> r.value in store.docs
    ensures r.Some? ==> forall d :: d in store.docs ==> d.timestamp <= r.value.timestamp
  {
    match store
    case Offline => None
    case Online(docs) =>
      var hits := Top(docs, 1);
      if hits == [] then None
      else
        SortedHeadIsNewest(docs);
        assert hits[0] in multiset(SortByTimestamp(docs));
        Some(hits[0])
  }

  /**
   * `getRecentMessages`: the first eleven hits newest first, minus the very
   * first; the empty list when the index cannot be reached.
   */
  function Recent(store: Store): (r: seq<Doc>)
    ensures store.Offline? ==> r == []
    ensures store.Online? ==> |r| == if |store.docs| < RecentFetch then
                                       (if store.docs == [] then 0 else |store.docs| - 1)
                                     else RecentFetch - 1
    ensures NewestFirst(r)
    ensures store.Online? ==> multiset(r) <= multiset(store.docs)
  {
    match store
    case Offline => []
    case Online(docs) =>
      var hits := Top(docs, RecentFetch);
      if hits == [] then []
      else
        SortIsNewestFirst(docs);
        SliceOfNewestFirst(SortByTimestamp(docs), 1, |hits|);
        hits[1..]
  }

  /** The last document is the head of the sorted documents. */
  lemma LastIsSortedHead(docs: seq<Doc>)
    requires docs != []
    ensures Last(Online(docs)) == Some(SortByTimestamp(docs)[0])
  {
    assert Top(docs, 1)[0] == SortByTimestamp(docs)[0];
  }

  /** The recent list is the sorted documents from the second up to the eleventh. */
  lemma RecentIsSortedSlice(docs: seq<Doc>, m: nat)
    requires docs != [] && m == if RecentFetch < |docs| then RecentFetch else |docs|
    ensures Recent(Online(docs)) == SortByTimestamp(docs)[1..m]
  {
    var hits := Top(docs, RecentFetch);
    assert hits == SortByTimestamp(docs)[..m];
  }

  /** A slice of a newest-first list is newest first and draws on the list's documents. */
  lemma SliceOfNewestFirst(s: seq<Doc>, lo: nat, hi: nat)
    requires NewestFirst(s) && lo <= hi <= |s|
    ensures NewestFirst(s[lo..hi])
    ensures multiset(s[lo..hi]) <= multiset(s)
  {
    assert s == s[..lo] + s[lo..hi] + s[hi..];
  }

  /**
   * `r` are the documents ranked right after `x` in `docs`: `x` and `r` are
   * drawn from `docs` without counting `x` twice, no document of `r` is
   * newer than `x`, and every document left out of both is no newer than
   * any document of `r`.
   */
  predicate RankedAfter(docs: seq<Doc>, x: Doc, r: seq<Doc>)
  {
    && multiset(r) + multiset{x} <= multiset(docs)
    && (forall e :: e in r ==> e.timestamp <= x.timestamp)
    && (forall d, e :: d in multiset(docs) - multiset(r) - multiset{x} && e in r ==>
          d.timestamp <= e.timestamp)
  }

  /**
   * The recent list together with the last document are the eleven newest
   * documents: the recent list is ranked right after the last document.
   */
  lemma RecentFollowsLast(docs: seq<Doc>)
    requires docs != []
    ensures Last(Online(docs)).Some?
    ensures RankedAfter(docs, Last(Online(docs)).value, Recent(Online(docs)))
  {
    var m := if RecentFetch < |docs| then RecentFetch else |docs|;
    LastIsSortedHead(docs);
    RecentIsSortedSlice(docs, m);
    SortIsNewestFirst(docs);
    SplitNewestFirst(docs, SortByTimestamp(docs), m);
  }

  /** Cutting a newest-first permutation of `docs` after its head and after position `m` ranks the middle right after the head. */
  lemma SplitNewestFirst(docs: seq<Doc>, s: seq<Doc>, m: nat)
    requires NewestFirst(s) && multiset(s) == multiset(docs) && 1 <= m <= |s|
    ensures RankedAfter(docs, s[0], s[1..m])
  {
    var head, middle, tail := s[0], s[1..m], s[m..];
    assert s == [head] + middle + tail;
    assert multiset(docs) == multiset{head} + multiset(middle) + multiset(tail);
    forall e | e in middle
      ensures e.timestamp <= head.timestamp
    {
      var i :| 0 <= i < |middle| && middle[i] == e;
      assert s[1 + i] == e;
    }
    forall d, e | d in multiset(docs) - multiset(middle) - multiset{head} && e in middle
      ensures d.timestamp <= e.timestamp
    {
      assert multiset(docs) - multiset(middle) - multiset{head} == multiset(tail);
      assert d in tail;
      TailNotNewer(s, m, d, e);
    }
  }

  /** In a newest-first list nothing at or after position `m` is newer than anything between the head and `m`. */
  lemma TailNotNewer(s: seq<Doc>, m: nat, d: Doc, e: Doc)
    requires NewestFirst(s) && 1 <= m <= |s|
    requires d in s[m..] && e in s[1..m]
    ensures d.timestamp <= e.timestamp
  {
    var j :| 0 <= j < |s| - m && s[m..][j] == d;
    var i :| 0 <= i < m - 1 && s[1..m][i] == e;
    assert s[m + j] == d && s[1 + i] == e;
  }

  /** When the newest document is unique, the recent list never contains it. */
  lemma RecentExcludesNewest(docs: seq<Doc>, x: Doc)
    requires multiset(docs)[x] == 1
    requires forall d :: d in docs && d != x ==> d.timestamp < x.timestamp
    ensures Last(Online(docs)) == Some(x)
    ensures x !in Recent(Online(docs))
  {
    RecentFollowsLast(docs);
    var r := Recent(Online(docs));
    assert multiset(r)[x] + 1 <= multiset(docs)[x];
  }
}
