/**
 * Near-earth objects: the close-approach window filter, the last/next 24
 * hours endpoint, the chain of four weekly windows and the sorted list of
 * mean diameters. Each feed reply is an input: a list of day buckets, in
 * the order of the reply's keys.
 */
module Neo {
  import opened Documents

  /** A near-earth object: its close-approach instants (ms since the epoch) and its diameter range in meters. */
  datatype NearObject = NearObject(id: string, approaches: seq<int>, diameterMin: real, diameterMax: real)

  /** The objects of one day of a feed reply. */
  datatype DayBucket = DayBucket(day: int, objects: seq<NearObject>)

  /** A feed reply: `near_earth_objects`, one bucket per day key. */
  type Feed = seq<DayBucket>

  /** Does some close approach of `n` fall in `[start, end]`, both ends included? */
  predicate InWindow(n: NearObject, start: int, end: int)
  {
    exists t :: t in n.approaches && start <= t <= end
  }

  /** `findNEOsInTimeFrame`: the objects with a close approach in `[start, end]`, in input order. */
  function FindInTimeFrame(objects: seq<NearObject>, start: int, end: int): (r: seq<NearObject>)
    ensures |r| <= |objects|
    ensures forall n :: n in r <==> n in objects && InWindow(n, start, end)
  {
    if objects == [] then []
    else
      assert objects == [objects[0]] + objects[1..];
      (if InWindow(objects[0], start, end) then [objects[0]] else []) + FindInTimeFrame(objects[1..], start, end)
  }

  /** The filter keeps every copy of a qualifying object and no copy of any other. */
  lemma {:induction false} FindInTimeFrameCounts(objects: seq<NearObject>, start: int, end: int)
    ensures forall n :: multiset(FindInTimeFrame(objects, start, end))[n] ==
                          if InWindow(n, start, end) then multiset(objects)[n] else 0
  {
    if objects != [] {
      FindInTimeFrameCounts(objects[1..], start, end);
      assert objects == [objects[0]] + objects[1..];
    }
  }

  /** The filter keeps input order: filtering a concatenation concatenates the filtered parts. */
  lemma {:induction false} FindInTimeFrameConcat(a: seq<NearObject>, b: seq<NearObject>, start: int, end: int)
    ensures FindInTimeFrame(a + b, start, end) == FindInTimeFrame(a, start, end) + FindInTimeFrame(b, start, end)
  {
    if a == [] {
      assert a + b == b;
    } else {
      assert (a + b)[0] == a[0] && (a + b)[1..] == a[1..] + b;
      FindInTimeFrameConcat(a[1..], b, start, end);
    }
  }

  /** Both ends of the window are inclusive; instants outside it do not count. */
  lemma WindowBoundaries(n: NearObject, start: int, end: int)
    requires n.approaches == [start] || n.approaches == [end]
    requires start <= end
    ensures FindInTimeFrame([n], start, end) == [n]
    ensures FindInTimeFrame([n.(approaches := [start - 1])], start, end) == []
    ensures FindInTimeFrame([n.(approaches := [end + 1])], start, end) == []
  {
    assert n.approaches[0] in n.approaches;
  }

  /** Feed day keys are distinct, as the keys of an object are. */
  predicate DistinctDays(feed: Feed)
  {
    forall i, j :: 0 <= i < j < |feed| ==> feed[i].day != feed[j].day
  }

  /** `neoList[day]`: the bucket of that day, if the reply has one. */
  function Lookup(feed: Feed, day: int): (r: Option<seq<NearObject>>)
    ensures r.Some? <==> exists i :: 0 <= i < |feed| && feed[i].day == day
    ensures r.Some? ==> exists i :: 0 <= i < |feed| && feed[i].day == day && feed[i].objects == r.value
  {
    if feed == [] then None
    else if feed[0].day == day then Some(feed[0].objects)
    else
      var r := Lookup(feed[1..], day);
      assert forall i :: 0 < i < |feed| ==> feed[1..][i - 1] == feed[i];
      r
  }

  /** With distinct day keys, looking a bucket's day up yields that bucket. */
  lemma {:induction false} LookupFinds(feed: Feed, i: nat)
    requires DistinctDays(feed) && i < |feed|
    ensures Lookup(feed, feed[i].day) == Some(feed[i].objects)
  {
    if i > 0 {
      LookupFinds(feed[1..], i - 1);
    }
  }

  /** The objects approaching in the last and in the next 24 hours. */
  datatype NeoWindows = NeoWindows(last: seq<NearObject>, next: seq<NearObject>)

  /**
   * `/getneos`: the last window filters yesterday's and today's buckets over
   * `[now - 24h, now]`, the next window today's and tomorrow's over
   * `[now, now + 24h]`. A missing bucket makes spreading it fail: `None`.
   */
  function GetNeos(feed: Feed, now: int): (r: Option<NeoWindows>)
    ensures var yesterday, today, tomorrow :=
              Lookup(feed, DayOf(now - MsPerDay)), Lookup(feed, DayOf(now)), Lookup(feed, DayOf(now + MsPerDay));
            && (r.Some? <==> yesterday.Some? && today.Some? && tomorrow.Some?)
            && (r.Some? ==> forall n :: n in r.value.last <==>
                  (n in yesterday.value || n in today.value) && InWindow(n, now - MsPerDay, now))
            && (r.Some? ==> forall n :: n in r.value.next <==>
                  (n in today.value || n in tomorrow.value) && InWindow(n, now, now + MsPerDay))
            && (r.Some? ==> r.value.last == FindInTimeFrame(yesterday.value + today.value, now - MsPerDay, now))
            && (r.Some? ==> r.value.next == FindInTimeFrame(today.value + tomorrow.value, now, now + MsPerDay))
  {
    var yesterday := Lookup(feed, DayOf(now - MsPerDay));
    var today := Lookup(feed, DayOf(now));
    var tomorrow := Lookup(feed, DayOf(now + MsPerDay));
    if yesterday.None? || today.None? || tomorrow.None? then None
    else
      FindInJoinedDays(yesterday.value, today.value, now - MsPerDay, now);
      FindInJoinedDays(today.value, tomorrow.value, now, now + MsPerDay);
      Some(NeoWindows(
        FindInTimeFrame(yesterday.value + today.value, now - MsPerDay, now),
        FindInTimeFrame(today.value + tomorrow.value, now, now + MsPerDay)))
  }

  /** Filtering two joined day lists keeps the objects of either day that approach in the window. */
  lemma FindInJoinedDays(a: seq<NearObject>, b: seq<NearObject>, start: int, end: int)
    ensures forall n :: n in FindInTimeFrame(a + b, start, end) <==> (n in a || n in b) && InWindow(n, start, end)
  {
    var r := FindInTimeFrame(a + b, start, end);
    forall n
      ensures n in r <==> (n in a || n in b) && InWindow(n, start, end)
    {
      assert n in a + b <==> n in a || n in b;
    }
  }

  /** Every close approach of an object listed under a day falls on that day. */
  predicate ApproachesOnBucketDay(feed: Feed)
  {
    forall i, n, t :: 0 <= i < |feed| && n in feed[i].objects && t in n.approaches ==> DayOf(t) == feed[i].day
  }

  /**
   * Joining two day buckets loses nothing at the day boundary: an object of
   * any bucket that approaches in the last 24 hours is in the last window,
   * and one that approaches in the next 24 hours is in the next window.
   */
  lemma WindowsComplete(feed: Feed, now: int, i: nat, n: NearObject)
    requires DistinctDays(feed) && ApproachesOnBucketDay(feed)
    requires GetNeos(feed, now).Some?
    requires i < |feed| && n in feed[i].objects
    ensures InWindow(n, now - MsPerDay, now) ==> n in GetNeos(feed, now).value.last
    ensures InWindow(n, now, now + MsPerDay) ==> n in GetNeos(feed, now).value.next
  {
    LookupFinds(feed, i);
    DayOfShift(now, -1);
    DayOfShift(now, 1);
    if InWindow(n, now - MsPerDay, now) {
      var t :| t in n.approaches && now - MsPerDay <= t <= now;
      DayOfMonotone(now - MsPerDay, t);
      DayOfMonotone(t, now);
    }
    if InWindow(n, now, now + MsPerDay) {
      var t :| t in n.approaches && now <= t <= now + MsPerDay;
      DayOfMonotone(now, t);
      DayOfMonotone(t, now + MsPerDay);
    }
  }

  // ---------------------------------------------------------------------
  // Size distribution

  /** The calendar days one feed request asks for, both ends included. */
  datatype Window = Window(startDay: int, endDay: int)

  /**
   * The four request windows of `/getneodistribution`: each ends one day
   * before the previous one starts and reaches seven days back.
   */
  function WeekWindows(now: int): (w: seq<Window>)
    ensures |w| == 4 && w[0].endDay == DayOf(now)
  {
    var oneEnd := now;
    var oneStart := oneEnd - 7 * MsPerDay;
    var twoEnd := oneStart - MsPerDay;
    var twoStart := twoEnd - 7 * MsPerDay;
    var threeEnd := twoStart - MsPerDay;
    var threeStart := threeEnd - 7 * MsPerDay;
    var fourEnd := threeStart - MsPerDay;
    var fourStart := fourEnd - 7 * MsPerDay;
    [Window(DayOf(oneStart), DayOf(oneEnd)), Window(DayOf(twoStart), DayOf(twoEnd)),
     Window(DayOf(threeStart), DayOf(threeEnd)), Window(DayOf(fourStart), DayOf(fourEnd))]
  }

  /**
   * The windows chain backwards from today: each spans eight calendar days,
   * each ends the day before the previous one starts, so together they
   * cover exactly the 32 days ending today, each day once.
   */
  lemma WeekWindowsChain(now: int)
    ensures var w := WeekWindows(now);
            && w[0].endDay == DayOf(now)
            && (forall k :: 0 <= k < 4 ==> w[k].endDay - w[k].startDay == 7)
            && (forall k :: 0 <= k < 3 ==> w[k + 1].endDay == w[k].startDay - 1)
            && w[3].startDay == DayOf(now) - 31
  {
    DayOfShift(now, -7);
    DayOfShift(now, -8);
    DayOfShift(now, -15);
    DayOfShift(now, -16);
    DayOfShift(now, -23);
    DayOfShift(now, -24);
    DayOfShift(now, -31);
  }

  /** A day lies in one of the four windows exactly when it is one of the 32 days ending today; no day lies in two. */
  lemma WeekWindowsCover(now: int, day: int)
    ensures var w := WeekWindows(now);
            && ((exists k :: 0 <= k < 4 && w[k].startDay <= day <= w[k].endDay) <==> DayOf(now) - 31 <= day <= DayOf(now))
            && (forall k, l :: 0 <= k < l < 4 && w[k].startDay <= day <= w[k].endDay ==> !(w[l].startDay <= day <= w[l].endDay))
  {
    WeekWindowsChain(now);
    var w := WeekWindows(now);
    if DayOf(now) - 31 <= day <= DayOf(now) {
      var k := if day >= w[0].startDay then 0 else if day >= w[1].startDay then 1 else if day >= w[2].startDay then 2 else 3;
      assert w[k].startDay <= day <= w[k].endDay;
    }
  }

  /** The mean of an object's minimum and maximum estimated diameter. */
  function MeanDiameter(n: NearObject): (m: real)
    ensures m - n.diameterMin == n.diameterMax - m
    ensures n.diameterMin <= n.diameterMax ==> n.diameterMin <= m <= n.diameterMax
  {
    (n.diameterMin + n.diameterMax) / 2.0
  }

  /** The mean diameters of a bucket's objects, in order. */
  function ObjectSizes(objects: seq<NearObject>): (r: seq<real>)
    ensures |r| == |objects|
    ensures forall i :: 0 <= i < |objects| ==> r[i] == MeanDiameter(objects[i])
  {
    seq(|objects|, i requires 0 <= i < |objects| => MeanDiameter(objects[i]))
  }

  /** The mean diameters of every object of every bucket of a feed, bucket by bucket (from the back). */
  function FeedSizes(feed: Feed): seq<real>
  {
    if feed == [] then [] else FeedSizes(feed[..|feed| - 1]) + ObjectSizes(feed[|feed| - 1].objects)
  }

  /** The number of objects across all buckets of a feed. */
  function ObjectCount(feed: Feed): nat
  {
    if feed == [] then 0 else ObjectCount(feed[..|feed| - 1]) + |feed[|feed| - 1].objects|
  }

  /** One size per object: a feed yields as many sizes as it lists objects. */
  lemma {:induction false} FeedSizesCount(feed: Feed)
    ensures |FeedSizes(feed)| == ObjectCount(feed)
  {
    if feed != [] {
      FeedSizesCount(feed[..|feed| - 1]);
    }
  }

  /** Every object of every bucket contributes its mean diameter. */
  lemma {:induction false} FeedSizesCover(feed: Feed, i: nat, n: NearObject)
    requires i < |feed| && n in feed[i].objects
    ensures MeanDiameter(n) in FeedSizes(feed)
  {
    var last := |feed| - 1;
    if i < last {
      FeedSizesCover(feed[..last], i, n);
    } else {
      var k :| 0 <= k < |feed[i].objects| && feed[i].objects[k] == n;
      assert ObjectSizes(feed[i].objects)[k] == MeanDiameter(n);
    }
  }

  /**
   * One of the four collection loops: push the mean diameter of every object
   * of every day bucket, in key order, onto `sizes`.
   */
  method PushFeedSizes(sizes: seq<real>, feed: Feed) returns (out: seq<real>)
    ensures out == sizes + FeedSizes(feed)
  {
    out := sizes;
    for b := 0 to |feed|
      invariant out == sizes + FeedSizes(feed[..b])
    {
      var objects := feed[b].objects;
      for k := 0 to |objects|
        invariant out == sizes + FeedSizes(feed[..b]) + ObjectSizes(objects[..k])
      {
        assert ObjectSizes(objects[..k + 1]) == ObjectSizes(objects[..k]) + [MeanDiameter(objects[k])];
        out := out + [MeanDiameter(objects[k])];
      }
      assert objects[..|objects|] == objects;
      assert feed[..b + 1][..b] == feed[..b];
    }
    assert feed[..|feed|] == feed;
  }

  /** Values never decrease along `s`. */
  predicate Ascending(s: seq<real>)
  {
    forall i, j :: 0 <= i < j < |s| ==> s[i] <= s[j]
  }

  /** `neoSizes.sort((a, b) => a - b)`: an in-place insertion sort into ascending order. */
  method SortAscending(a: array<real>)
    modifies a
    ensures Ascending(a[..])
    ensures multiset(a[..]) == multiset(old(a[..]))
  {
    if a.Length == 0 {
      return;
    }
    var i := 1;
    while i < a.Length
      invariant 1 <= i <= a.Length
      invariant Ascending(a[..i])
      invariant multiset(a[..]) == multiset(old(a[..]))
    {
      var j := i;
      while j > 0 && a[j - 1] > a[j]
        invariant 0 <= j <= i
        invariant forall p, q :: 0 <= p < q <= i && p != j && q != j ==> a[p] <= a[q]
        invariant forall q :: j < q <= i ==> a[j] <= a[q]
        invariant multiset(a[..]) == multiset(old(a[..]))
      {
        Swap(a, j - 1, j);
        j := j - 1;
      }
      i := i + 1;
    }
  }

  /** Exchange two neighbouring elements. */
  method Swap(a: array<real>, i: nat, j: nat)
    requires i < j < a.Length
    modifies a
    ensures a[i] == old(a[j]) && a[j] == old(a[i])
    ensures forall k :: 0 <= k < a.Length && k != i && k != j ==> a[k] == old(a[k])
    ensures multiset(a[..]) == multiset(old(a[..]))
  {
    a[i], a[j] := a[j], a[i];
  }

  /**
   * `/getneodistribution` after the four feed requests: the mean diameter of
   * every object of every bucket of the four replies, in ascending order.
   */
  method NeoDistribution(week1: Feed, week2: Feed, week3: Feed, week4: Feed) returns (sizes: seq<real>)
    ensures Ascending(sizes)
    ensures multiset(sizes) == multiset(FeedSizes(week1) + FeedSizes(week2) + FeedSizes(week3) + FeedSizes(week4))
    ensures |sizes| == ObjectCount(week1) + ObjectCount(week2) + ObjectCount(week3) + ObjectCount(week4)
  {
    var collected: seq<real> := [];
    collected := PushFeedSizes(collected, week1);
    collected := PushFeedSizes(collected, week2);
    collected := PushFeedSizes(collected, week3);
    collected := PushFeedSizes(collected, week4);
    var a := new real[|collected|](i requires 0 <= i < |collected| => collected[i]);
    assert a[..] == collected;
    SortAscending(a);
    sizes := a[..];
    FeedSizesCount(week1);
    FeedSizesCount(week2);
    FeedSizesCount(week3);
    FeedSizesCount(week4);
    assert |sizes| == |multiset(sizes)| == |collected|;
  }
}
