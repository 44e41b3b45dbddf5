# Space-weather event pipeline: a Dafny model

This project models the core of a pipeline for space-weather events. The
pipeline has three parts:

- **Ingestion** (`kafka_consumer.js`). A broker consumer parses each message.
  It stamps the message with the consumption time as `@timestamp` and writes it
  to the `space` index, one message at a time.
- **Query service** (`database_app.js`). It answers:
  - a filtered search (date range, event type, source), capped at 1000 hits;
  - the newest document, and the ten documents after it;
  - event counts over the five-type taxonomy;
  - a 5 by 5 event-by-urgency table of the last week;
  - the near-Earth objects that approach in the last and the next 24 hours;
  - the sorted size distribution of four weeks of near-Earth objects.
- **Fan-out relay** (`frontend/app.js`). It keeps the set of WebSocket
  connections. On every tick it sends the newest document to every open
  connection when the document's urgency is at least 4.

The modules follow that structure:

| file | module | models |
|---|---|---|
| `documents.dfy` | `Documents` | the stored document, the index as a value (`Online(docs)` or `Offline`), the taxonomy, UTC calendar days |
| `search.dfy` | `MessageSearch` | `getMessages`: the `must` clauses built from the options, and the capped search |
| `recency.dfy` | `Recency` | `getLastMessage` and `getRecentMessages` over the `@timestamp`-descending sort |
| `aggregation.dfy` | `Aggregation` | `getEventCounts`, and `/geteventdistribution` as a loop over a 5 by 5 `array2` |
| `neo.dfy` | `Neo` | `findNEOsInTimeFrame`, `/getneos`, and `/getneodistribution`: its window chain, its collection loops and an in-place sort of the sizes |
| `relay.dfy` | `Relay` | the connection set as a class, connect, close and the broadcast tick |
| `ingest.dfy` | `Ingest` | `indexDocument`, `eachMessage` and the sequential consumer loop writing into an index object |

The external world enters as parameters:

- the wall clock is an integer `now` in milliseconds;
- the search engine's contents are a `Store`;
- a NASA feed reply is a `Feed` of day buckets;
- a poll of `/getlast` is a `Poll`;
- a broker delivery is a `Delivery`. It carries its parsed value, the clock
  reading when it is indexed, and whether the index accepts the write.

Document `date`s are seconds since the epoch (UTC). `@timestamp` is in
milliseconds. Day parameters are day numbers, and `DayOf` is the calendar day
that `toISOString().split('T')[0]` yields.

A newer document of low urgency masks an older one of high urgency. Suppose
a GRB of urgency 5 is followed one second later by a Comet of urgency 2. The
next tick polls the Comet, the newest document, and sends nothing
(`Relay.NewerLowUrgencyMasksOlder`).

## Model

| member | source | states |
|---|---|---|
| Documents.DayOf | database_app.js:84-86 | the date part of an ISO string is the floor of the time over one day: the day's first millisecond is not after the time, the next day's is after it |
| Documents.DayOfShift | database_app.js:80-86 | moving a time by `k` whole days moves its calendar day by exactly `k` |
| Documents.DayOfMonotone | database_app.js:84-86 | a later time never has an earlier calendar day |
| Documents.EventIndex | database_app.js:110-149 | a type has a row exactly when it is one of the five taxonomy types, and the row found is that type's row |
| MessageSearch.Filter | database_app.js:288-327 | the `must` list holds at most three clauses, each one requested by the options; the date range is present when both dates are; an event or source clause is present when that option is non-empty and not `All` |
| MessageSearch.BuildMust | database_app.js:292-327 | pushing the requested clauses one by one onto an empty `must` list builds exactly the clause list `Filter` describes |
| MessageSearch.Matching | database_app.js:331-340 | a document is a hit exactly when it is stored and satisfies every clause; no more hits than documents |
| MessageSearch.MatchingCounts | database_app.js:331-340 | the hits keep every stored copy of a matching document and no copy of any other, so "number of matches" counts copies |
| MessageSearch.Search | database_app.js:329-344 | an unreachable index gives the empty list; otherwise every hit is a stored, matching document, there are min(1000, number of matches) hits, and the hits are a sub-multiset of the matches (no document comes back more often than it is stored and matches), and exactly the matches, every stored copy, when there are at most 1000 |
| MessageSearch.DateRangeCoversWholeDays | database_app.js:299-308 | a document lies in the range built from two days exactly when its calendar day lies between them, both end days included in full |
| MessageSearch.StartsOnOrAfterDay | database_app.js:303 | a time is at or after `day 00:00:00` exactly when its day is not before `day` |
| MessageSearch.EndsOnOrBeforeDay | database_app.js:304 | a time is at or before `day 23:59:59` exactly when its day is not after `day` |
| MessageSearch.AllIsOmission | database_app.js:312 | passing `All` as event type or source builds the same query as leaving it out |
| MessageSearch.SearchByEventFinds | database_app.js:311-318 | when at most 1000 documents match, searching by a stored document's event type finds it |
| Recency.SortByTimestamp | database_app.js:377-379 | the sorted hits are a permutation of the stored documents |
| Recency.InsertKeepsNewestFirst | database_app.js:355 | inserting by `@timestamp` into a newest-first list keeps it newest first |
| Recency.SortIsNewestFirst | database_app.js:377-379 | the sorted hits never increase in `@timestamp` |
| Recency.SortedHeadIsNewest | database_app.js:351-360 | the first sorted hit is at least as new as every stored document |
| Recency.Top | database_app.js:353-376 | a search of size `k` (1 for the last document at line 353, 11 for the recent list at line 376) returns `k` hits, or every document when fewer are stored, and they are the first hits of the newest-first sort |
| Recency.Last | database_app.js:348-367 | a document is returned exactly when the index is reachable and non-empty; it is a stored document and no stored document is newer |
| Recency.Recent | database_app.js:370-393 | an unreachable index gives the empty list; otherwise the list has ten documents, or one fewer than stored when fewer than eleven are stored; it is newest first and drawn from the stored documents |
| Recency.RecentFollowsLast | database_app.js:348-393 | together the last document and the recent list are the newest documents: the list never repeats the last document's copy, none of it is newer than the last document, and every document left out is no newer than any listed one |
| Recency.RecentExcludesNewest | database_app.js:376-386 | when the newest document is unique, it is the last document and is not in the recent list |
| Aggregation.BucketTable | database_app.js:417-420 | the counts object has exactly the bucket keys |
| Aggregation.LastBucketWins | database_app.js:418-419 | a key's count is that of the last bucket carrying the key |
| Aggregation.FillTaxonomy | database_app.js:422-429 | the result has exactly the five taxonomy keys, each with its bucket count, or 0 when no bucket has it |
| Aggregation.EventCounts | database_app.js:396-436 | a failed request gives the empty object; otherwise the loop over the buckets followed by the taxonomy fill |
| Aggregation.FilledCountsAreTrue | database_app.js:418-429 | when the aggregation reports true counts, each filled key holds that type's document count |
| Aggregation.CountsSumToTotal | database_app.js:396-436 | when the aggregation reports true counts and every type is in the taxonomy, the five counts add up to the number of documents |
| Aggregation.StoredDocumentCounted | database_app.js:418-428 | a stored document of a taxonomy type is counted (count at least 1) under its type |
| Aggregation.Tally | database_app.js:110-150 | a table is produced exactly when every document's type is in the taxonomy; its cell (type, urgency) holds the number of documents of that type and urgency |
| Aggregation.Snapshot | database_app.js:151 | the table is read out cell for cell |
| Aggregation.CellsCountEvent | database_app.js:148-150 | with urgencies in 1 to 5, a type's five cells add up to its document count |
| Aggregation.TableTotal | database_app.js:110-150 | with known types and urgencies in 1 to 5, the 25 cells add up to the number of documents |
| Aggregation.LastWeek | database_app.js:104-108 | the distribution searches from the day one week before today through today |
| Aggregation.EventDistribution | database_app.js:102-152 | the table exists exactly when every document found by the last-week search has a known type, and it tabulates those documents |
| Neo.FindInTimeFrame | database_app.js:454-467 | an object is kept exactly when it is in the input and one of its close approaches lies in the window; never more objects than in the input |
| Neo.FindInTimeFrameCounts | database_app.js:456-464 | the filter keeps every copy of a qualifying object and no copy of any other |
| Neo.FindInTimeFrameConcat | database_app.js:456 | the filter keeps input order: filtering joined lists joins the filtered lists |
| Neo.WindowBoundaries | database_app.js:462 | both window ends are inclusive, and one instant outside either end is excluded |
| Neo.Lookup | database_app.js:92-93 | a bucket list is found exactly when the feed has a bucket for that day, and it is that bucket's list |
| Neo.LookupFinds | database_app.js:92-93 | with distinct day keys, looking up a bucket's day yields that bucket |
| Neo.GetNeos | database_app.js:76-99 | an answer exists exactly when the buckets for yesterday, today and tomorrow all exist; `last` holds the objects of yesterday and today approaching in the last 24 hours, `next` those of today and tomorrow approaching in the next 24 hours; each window is the time filter applied to the two joined buckets, so `FindInTimeFrameCounts` and `FindInTimeFrameConcat` give its order and copies |
| Neo.FindInJoinedDays | database_app.js:92-96 | filtering two joined day lists keeps the objects of either day that approach in the window |
| Neo.WindowsComplete | database_app.js:78-96 | when every approach falls on its bucket's day, no object of the feed approaching in either 24-hour window is missed |
| Neo.WeekWindows | database_app.js:157-167 | four request windows, the first ending today; `WeekWindowsChain` and `WeekWindowsCover` state how they chain |
| Neo.WeekWindowsChain | database_app.js:157-174 | the four request windows each span eight calendar days, start today and step back without gap, ending 31 days before today |
| Neo.WeekWindowsCover | database_app.js:157-174 | a day is in some window exactly when it is one of the 32 days ending today, and no day is in two windows |
| Neo.MeanDiameter | database_app.js:183 | an object's size is the midpoint of its estimated minimum and maximum diameters: equally far from both, and between them when the minimum does not exceed the maximum |
| Neo.FeedSizesCount | database_app.js:180-203 | a feed gives one size per object |
| Neo.FeedSizesCover | database_app.js:180-203 | every object of every bucket contributes its mean diameter |
| Neo.PushFeedSizes | database_app.js:180-185 | the nested loop appends the mean diameters of the feed's objects, bucket by bucket in order |
| Neo.SortAscending | database_app.js:206 | the sizes end in ascending order and are a permutation of the sizes before |
| Neo.NeoDistribution | database_app.js:155-208 | the result is ascending, a permutation of the mean diameters of all four replies, with one entry per object |
| Relay.Relay.constructor | frontend/app.js:11 | the connection set starts empty |
| Relay.Relay.OnConnect | frontend/app.js:14-16 | the new client joins the set; a client already in it changes nothing |
| Relay.Relay.OnClose | frontend/app.js:20-22 | the closing client leaves the set and every other member stays |
| Relay.Relay.Tick | frontend/app.js:26-45 | the set and every ready state are unchanged; every open member is sent the document once when the fetched document has urgency at least 4, and nothing is sent otherwise (failed poll, null body, lower urgency, not open) |
| Relay.Broadcasts | frontend/app.js:28-44 | a failed poll and a null body never broadcast (reading `urgency` of null throws into the error handler); a fetched document broadcasts exactly when its urgency is at least 4 |
| Relay.NewerLowUrgencyMasksOlder | frontend/app.js:28-40 | after a GRB of urgency 5 and a Comet of urgency 2 one second later, the poll fetches the Comet, nothing is broadcast, and the recent list is the GRB alone |
| Ingest.Stamp | kafka_consumer.js:63-65 | the stored document carries the producer's fields and the consumption time as `@timestamp`; since `@timestamp` comes after the spread, no producer `@timestamp` survives in the document |
| Ingest.StampKeepsProducerFields | kafka_consumer.js:65 | for parsed messages (each key once), stamping loses only a producer-supplied `@timestamp`: two messages stamp alike exactly when they differ at most there, and unstamping gives the message back |
| Ingest.IndexDocument | kafka_consumer.js:61-76 | an accepted write appends the stamped document; a rejected one is caught and changes nothing |
| Ingest.EachMessage | kafka_consumer.js:35-46 | the handler throws exactly when the value does not parse, and then writes nothing; otherwise it indexes the message |
| Ingest.Consume | kafka_consumer.js:34-47 | after the run, the index holds the old documents followed by the stored documents of each delivery in delivery order, with one outcome per delivery |
| Ingest.StoredConcat | kafka_consumer.js:34-47 | two runs store what the first stores followed by what the second stores |
| Ingest.StoredCount | kafka_consumer.js:61-76 | one document is stored per parsed and accepted delivery |
| Ingest.StoredAtClocks | kafka_consumer.js:64 | every stored `@timestamp` is the clock reading of some delivery |
| Ingest.StoredIncreasing | kafka_consumer.js:64-65 | with a strictly increasing clock, stored timestamps strictly increase in write order |
| Ingest.LastIsLatestWrite | database_app.js:348-367 | when timestamps increase in write order, the last-document query returns the last document written |
| Ingest.IngestThenLast | kafka_consumer.js:35-37 | after a run with a strictly increasing clock over an index whose documents are all older than the run's clock readings (in any order among themselves), the last-document query returns the last document the run wrote |
| Ingest.UniqueNewestIsLast | database_app.js:348-367 | a stored document strictly newer than every other stored document is the one the last-document query returns |

## Left out

- HTTP routing, JSON responses and the 500 handlers of the query service are
  not modelled. The routes are modelled through the functions they call.
- The `/sunspots` and `/sundata` scrapes are left out. They are outside the
  core.
- `getNEOs` (the NASA request) is left out; its reply is an input `Feed`. On a
  failed request it returns `{}`; the model takes that as a feed without
  buckets. `Promise.all` over four requests becomes four `Feed` inputs.
- The search engine is a `Store` value. Left out: text analysis (`match_phrase`
  is modelled as exact equality), relevance scoring and hit order of the
  filtered search, and the tie order of the `@timestamp` sort.
- MessageSearch.Search: states which documents come back and how many copies of each, not their order, nor which 1000 are chosen when more match.
- Recency.SortByTimestamp: breaks ties between equal timestamps in one fixed way. Each property stated about `Last` or `Recent` alone holds whatever the tie order. `Recency.RecentFollowsLast` and `Relay.NewerLowUrgencyMasksOlder` relate two queries and hold only when both break ties the same way, as they do here since both use the one `SortByTimestamp`; two separate index requests need not.
- The `date.keyword` range is compared as strings in the source. For the
  producer's `YYYY-MM-DD HH:MM:SS UTC` format this is the same order as the
  seconds the model uses. Other date formats are not modelled.
- `toISOString` and `Date` parsing are not modelled. Times are integer
  milliseconds; approach dates are already parsed.
- Sizes are real numbers, so floating-point rounding is not modelled.
- Aggregation.Tally: an urgency outside 1 to 5 makes the source add a NaN-valued key to the row; the model leaves the 25 cells untouched and drops that key.
- The source throws on a type outside the taxonomy and the request is left
  unanswered. The model returns `None`. JavaScript prototype names such as
  `toString` used as an event are not modelled.
- Aggregation.FilledCountsAreTrue: assumes the terms aggregation reports true counts (`Faithful`). With more than five distinct event values, its `size: 5` can drop a taxonomy type, which then reads 0.
- Neo.GetNeos: a missing bucket makes the source's spread throw and leaves the request unanswered. The model returns `None`.
- The WebSocket server, the 12-second timer and `axios` are left out. A tick
  is one call with the poll's outcome. `JSON.stringify` is left out: `sent`
  records the document itself.
- Relay.Relay.Tick: visits connections in no fixed order; the order of sends across different connections is not captured.
- Kafka and SASL setup, subscription, offsets, broker redelivery and logging
  are left out. When `eachMessage` throws, KafkaJS leaves the offset uncommitted
  and hands the same message over again, so a malformed value is retried, not
  skipped. `Ingest.Consume` moves on to the next delivery after `Threw`: the
  model delivers each message at most once.
- A parsed message keeps each field other than the schema fields as its JSON text; their JSON types are not modelled. A message whose keys repeat cannot come out of `JSON.parse`, so none is modelled.
- Ingest.EachMessage: a null message value (its `toString` throws) is folded into `Malformed`; a value that parses to a non-object is not distinguished from a message.
- `generate_messages.py` and `load_BSC_to_redis.py` are not part of this model.
