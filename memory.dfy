/**
 * The mentor's memory layer: a Mem0 store with a SQLite fallback, switched off after a
 * number of backend failures, and the pure helpers that shape what it returns.
 *
 * Mem0's `search` and `add` are parameters that may fail (a `Failure` is the exception
 * the client raised); the SQLite fallbacks are parameters that never fail, because the
 * source catches everything inside them. A memory's metadata is a record of the keys the
 * code reads, with `None` for a key that is absent.
 */
module Memory {
  import opened Common
  import opened Text

  // ---------- memories and their metadata ----------

  datatype Meta = Meta(
    errorDetected: bool,
    errorType: Option<string>,
    occurrenceCount: Option<int>,
    qualityScore: Option<real>,
    timestamp: Option<string>,
    userMessage: Option<string>,
    guidanceResponse: Option<string>,
    mode: Option<string>,
    sessionId: Option<string>)

  /** One search hit: the stored text, its metadata and its relevance score. */
  datatype MemoryItem = MemoryItem(memory: string, metadata: Meta, score: real)

  /** Python truthiness of an optional string. */
  predicate Truthy(o: Option<string>)
  {
    o.Some? && o.value != ""
  }

  /** `metadata.get(key, '')`. */
  function OrEmpty(o: Option<string>): string
  {
    if o.Some? then o.value else ""
  }

  /** `metadata.get(key, 0)` on an integer entry. */
  function IntOrZero(o: Option<int>): int
  {
    if o.Some? then o.value else 0
  }

  /** `metadata.get(key, 0)` on a numeric entry. */
  function RealOrZero(o: Option<real>): real
  {
    if o.Some? then o.value else 0.0
  }

  // ---------- the enriched context ----------

  datatype HistoryEntry = HistoryEntry(
    userMessage: string, guidanceResponse: string, mode: Option<string>,
    timestamp: Option<string>, memory: string, score: real)

  datatype SuccessCase = SuccessCase(
    userMessage: string, guidanceResponse: string, mode: Option<string>,
    qualityScore: Option<real>, memory: string, score: real)

  datatype RecurringError = RecurringError(
    errorType: Option<string>, occurrenceCount: Option<int>,
    lastOccurrence: Option<string>, memory: string, score: real)

  datatype Context = Context(
    recentHistory: seq<HistoryEntry>,
    similarSuccessCases: seq<SuccessCase>,
    recurringErrors: seq<RecurringError>)

  /** What retrieval returns when no backend can be used. */
  const EmptyContext: Context := Context([], [], [])

  const RetrieveLimit: nat := 10
  const ErrorCountLimit: nat := 50
  const HistoryCap: nat := 5
  const SuccessCap: nat := 3
  const RecurringCap: nat := 5
  const PatternCap: nat := 5
  const RecurringOccurrences: int := 2
  const SuccessQuality: real := 0.85

  // ---------- bucketing the search results ----------

  datatype Bucket = RecurringBucket | SuccessBucket | HistoryBucket

  /** Which list a search hit goes to: a recurring error first, then a high-quality
      success case, and everything else is history. */
  function BucketOf(m: Meta): Bucket
  {
    if Truthy(m.errorType) && IntOrZero(m.occurrenceCount) >= RecurringOccurrences then RecurringBucket
    else if RealOrZero(m.qualityScore) >= SuccessQuality then SuccessBucket
    else HistoryBucket
  }

  /** The hits that go to bucket `b`, in search order. */
  function Bucketed(rs: seq<MemoryItem>, b: Bucket): (r: seq<MemoryItem>)
    ensures |r| <= |rs|
    decreases |rs|
  {
    if |rs| == 0 then []
    else Bucketed(rs[..|rs| - 1], b) + (if BucketOf(rs[|rs| - 1].metadata) == b then [rs[|rs| - 1]] else [])
  }

  function ToHistory(x: MemoryItem): HistoryEntry
  {
    HistoryEntry(OrEmpty(x.metadata.userMessage), OrEmpty(x.metadata.guidanceResponse),
                 x.metadata.mode, x.metadata.timestamp, x.memory, x.score)
  }

  function ToSuccess(x: MemoryItem): SuccessCase
  {
    SuccessCase(OrEmpty(x.metadata.userMessage), OrEmpty(x.metadata.guidanceResponse),
                x.metadata.mode, x.metadata.qualityScore, x.memory, x.score)
  }

  function ToRecurring(x: MemoryItem): RecurringError
  {
    RecurringError(x.metadata.errorType, x.metadata.occurrenceCount, x.metadata.timestamp,
                   x.memory, x.score)
  }

  /** The context built from a list of search hits: each bucket's entries in search
      order, cut to 5 history entries, 3 success cases and 5 recurring errors. */
  function Categorized(rs: seq<MemoryItem>): (c: Context)
    ensures |c.recentHistory| == Min(|Bucketed(rs, HistoryBucket)|, HistoryCap)
    ensures |c.similarSuccessCases| == Min(|Bucketed(rs, SuccessBucket)|, SuccessCap)
    ensures |c.recurringErrors| == Min(|Bucketed(rs, RecurringBucket)|, RecurringCap)
    ensures forall k :: 0 <= k < |c.recentHistory| ==>
              c.recentHistory[k] == ToHistory(Bucketed(rs, HistoryBucket)[k])
    ensures forall k :: 0 <= k < |c.similarSuccessCases| ==>
              c.similarSuccessCases[k] == ToSuccess(Bucketed(rs, SuccessBucket)[k])
    ensures forall k :: 0 <= k < |c.recurringErrors| ==>
              c.recurringErrors[k] == ToRecurring(Bucketed(rs, RecurringBucket)[k])
  {
    Context(Take(MapSeq(Bucketed(rs, HistoryBucket), ToHistory), HistoryCap),
            Take(MapSeq(Bucketed(rs, SuccessBucket), ToSuccess), SuccessCap),
            Take(MapSeq(Bucketed(rs, RecurringBucket), ToRecurring), RecurringCap))
  }

  /** A hit is in bucket `b` exactly when it is one of the hits and `b` is its bucket. */
  lemma {:induction false} BucketedMembers(rs: seq<MemoryItem>, b: Bucket, x: MemoryItem)
    ensures x in Bucketed(rs, b) <==> x in rs && BucketOf(x.metadata) == b
    decreases |rs|
  {
    if |rs| > 0 {
      var n := |rs| - 1;
      BucketedMembers(rs[..n], b, x);
      assert rs == rs[..n] + [rs[n]];
    }
  }

  /** Every hit goes to exactly one bucket. */
  lemma ExactlyOneBucket(rs: seq<MemoryItem>, i: nat)
    requires i < |rs|
    ensures rs[i] in Bucketed(rs, BucketOf(rs[i].metadata))
    ensures forall b :: b != BucketOf(rs[i].metadata) ==> rs[i] !in Bucketed(rs, b)
  {
    BucketedMembers(rs, BucketOf(rs[i].metadata), rs[i]);
    forall b | b != BucketOf(rs[i].metadata)
      ensures rs[i] !in Bucketed(rs, b)
    {
      BucketedMembers(rs, b, rs[i]);
    }
  }

  /** Before the caps, the three buckets together hold every hit once. */
  lemma {:induction false} BucketsPartition(rs: seq<MemoryItem>)
    ensures |Bucketed(rs, RecurringBucket)| + |Bucketed(rs, SuccessBucket)| + |Bucketed(rs, HistoryBucket)| == |rs|
    decreases |rs|
  {
    if |rs| > 0 {
      BucketsPartition(rs[..|rs| - 1]);
    }
  }

  /** One more hit placed by the categorising loop. */
  lemma BucketedStep(rs: seq<MemoryItem>, i: nat, b: Bucket)
    requires i < |rs|
    ensures Bucketed(rs[..i + 1], b) == Bucketed(rs[..i], b) + (if BucketOf(rs[i].metadata) == b then [rs[i]] else [])
  {
    assert rs[..i + 1][..i] == rs[..i];
  }

  /** `_retrieve_from_mem0` after the search: the categorising loop and the caps. */
  method CategorizeResults(results: seq<MemoryItem>) returns (c: Context)
    ensures c == Categorized(results)
  {
    var history: seq<HistoryEntry> := [];
    var success: seq<SuccessCase> := [];
    var recurring: seq<RecurringError> := [];
    var i := 0;
    while i < |results|
      invariant 0 <= i <= |results|
      invariant history == MapSeq(Bucketed(results[..i], HistoryBucket), ToHistory)
      invariant success == MapSeq(Bucketed(results[..i], SuccessBucket), ToSuccess)
      invariant recurring == MapSeq(Bucketed(results[..i], RecurringBucket), ToRecurring)
    {
      var result := results[i];
      BucketedStep(results, i, HistoryBucket);
      BucketedStep(results, i, SuccessBucket);
      BucketedStep(results, i, RecurringBucket);
      if Truthy(result.metadata.errorType) && IntOrZero(result.metadata.occurrenceCount) >= RecurringOccurrences {
        MapSeqSnoc(Bucketed(results[..i], RecurringBucket), result, ToRecurring);
        recurring := recurring + [ToRecurring(result)];
      } else if RealOrZero(result.metadata.qualityScore) >= SuccessQuality {
        MapSeqSnoc(Bucketed(results[..i], SuccessBucket), result, ToSuccess);
        success := success + [ToSuccess(result)];
      } else {
        MapSeqSnoc(Bucketed(results[..i], HistoryBucket), result, ToHistory);
        history := history + [ToHistory(result)];
      }
      i := i + 1;
    }
    assert results[..i] == results;
    history := Take(history, HistoryCap);
    success := Take(success, SuccessCap);
    recurring := Take(recurring, RecurringCap);
    c := Context(history, success, recurring);
  }

  // ---------- the stored occurrence count ----------

  /** How many of the hits record error type `e`. */
  function CountOfType(rs: seq<MemoryItem>, e: string): (n: nat)
    ensures n <= |rs|
    decreases |rs|
  {
    if |rs| == 0 then 0
    else CountOfType(rs[..|rs| - 1], e) + (if rs[|rs| - 1].metadata.errorType == Some(e) then 1 else 0)
  }

  /** The metadata stored with an interaction: the caller's metadata with the session,
      the time, both messages and, for a detected error, the occurrence count replaced. */
  function FullMetadata(metadata: Meta, sessionId: string, now: string, userMessage: string,
                        response: string, priorCount: nat): (m: Meta)
    ensures m.occurrenceCount ==
              (if metadata.errorDetected && Truthy(metadata.errorType) then Some(priorCount + 1)
               else metadata.occurrenceCount)
    ensures m.errorDetected == metadata.errorDetected && m.errorType == metadata.errorType
    ensures m.qualityScore == metadata.qualityScore && m.mode == metadata.mode
    ensures m.sessionId == Some(sessionId) && m.timestamp == Some(now)
    ensures m.userMessage == Some(userMessage) && m.guidanceResponse == Some(response)
  {
    var full := metadata.(sessionId := Some(sessionId), timestamp := Some(now),
                          userMessage := Some(userMessage), guidanceResponse := Some(response));
    if metadata.errorDetected && Truthy(metadata.errorType) then full.(occurrenceCount := Some(priorCount + 1))
    else full
  }

  // ---------- the user profile's error patterns ----------

  /** The truthy error types of the memories, each once, in the order first seen (the
      keys of the counting dict). */
  function ErrorTypes(ms: seq<MemoryItem>): seq<string>
    decreases |ms|
  {
    if |ms| == 0 then []
    else
      var ts := ErrorTypes(ms[..|ms| - 1]);
      var e := ms[|ms| - 1].metadata.errorType;
      if Truthy(e) && e.value !in ts then ts + [e.value] else ts
  }

  /** The error types are distinct, and they are exactly the non-empty types some memory
      records. */
  lemma {:induction false} ErrorTypesSpec(ms: seq<MemoryItem>)
    ensures forall a, b :: 0 <= a < b < |ErrorTypes(ms)| ==> ErrorTypes(ms)[a] != ErrorTypes(ms)[b]
    ensures forall e :: e in ErrorTypes(ms) <==> e != "" && CountOfType(ms, e) > 0
    decreases |ms|
  {
    if |ms| > 0 {
      ErrorTypesSpec(ms[..|ms| - 1]);
    }
  }

  /** A dict entry `(error_type, count)` with the position where its key was inserted. */
  datatype Tally = Tally(errorType: string, count: nat, firstSeen: nat)

  /** The counting dict of the memories' error types, in insertion order. */
  function Tallies(ms: seq<MemoryItem>): (ts: seq<Tally>)
    ensures |ts| == |ErrorTypes(ms)|
  {
    var types := ErrorTypes(ms);
    seq(|types|, k requires 0 <= k < |types| => Tally(types[k], CountOfType(ms, types[k]), k))
  }

  /** `a` comes before `b` in a stable sort by count, largest first. */
  predicate Before(a: Tally, b: Tally)
  {
    a.count > b.count || (a.count == b.count && a.firstSeen < b.firstSeen)
  }

  predicate SortedDesc(s: seq<Tally>)
  {
    forall a, b :: 0 <= a < b < |s| ==> Before(s[a], s[b])
  }

  /** Inserts `x` after every entry whose count is at least its own. */
  function InsertDesc(s: seq<Tally>, x: Tally): (r: seq<Tally>)
    ensures multiset(r) == multiset(s) + multiset{x}
    decreases |s|
  {
    if |s| == 0 then [x]
    else if s[|s| - 1].count >= x.count then s + [x]
    else
      assert s == s[..|s| - 1] + [s[|s| - 1]];
      InsertDesc(s[..|s| - 1], x) + [s[|s| - 1]]
  }

  /** Python's `sorted(items, key=count, reverse=True)`: a stable insertion sort. */
  function SortDesc(xs: seq<Tally>): (r: seq<Tally>)
    ensures multiset(r) == multiset(xs)
    decreases |xs|
  {
    if |xs| == 0 then []
    else
      assert xs == xs[..|xs| - 1] + [xs[|xs| - 1]];
      InsertDesc(SortDesc(xs[..|xs| - 1]), xs[|xs| - 1])
  }

  lemma SortedSnoc(s: seq<Tally>, x: Tally)
    requires SortedDesc(s)
    requires forall z :: z in s ==> Before(z, x)
    ensures SortedDesc(s + [x])
  {
    var r := s + [x];
    forall a, b | 0 <= a < b < |r| ensures Before(r[a], r[b]) {
      assert r[a] == s[a];
      if b < |s| {
        assert r[b] == s[b];
      } else {
        assert s[a] in s;
      }
    }
  }

  lemma SortedPrefix(s: seq<Tally>, n: nat)
    requires SortedDesc(s) && n <= |s|
    ensures SortedDesc(s[..n])
  {
    forall a, b | 0 <= a < b < n ensures Before(s[..n][a], s[..n][b]) {
      assert s[..n][a] == s[a] && s[..n][b] == s[b];
    }
  }

  /** Inserting an entry seen later than all the others keeps a sorted list sorted. */
  lemma {:induction false} InsertDescSorted(s: seq<Tally>, x: Tally)
    requires SortedDesc(s)
    requires forall y :: y in s ==> y.firstSeen < x.firstSeen
    ensures SortedDesc(InsertDesc(s, x))
    decreases |s|
  {
    if |s| == 0 {
      assert InsertDesc(s, x) == [x];
    } else {
      var n := |s| - 1;
      var last := s[n];
      if last.count >= x.count {
        forall z | z in s ensures Before(z, x) {
          var a :| 0 <= a < |s| && s[a] == z;
          if a < n {
            assert Before(s[a], last);
          }
        }
        SortedSnoc(s, x);
      } else {
        SortedPrefix(s, n);
        assert forall y :: y in s[..n] ==> y in s;
        InsertDescSorted(s[..n], x);
        var head := InsertDesc(s[..n], x);
        forall z | z in head
          ensures Before(z, last)
        {
          assert z in multiset(head);
          if z != x {
            assert z in multiset(s[..n]);
            var a :| 0 <= a < n && s[a] == z;
          }
        }
        SortedSnoc(head, last);
      }
    }
  }

  /** The sort orders by count, largest first, and keeps insertion order among ties. */
  lemma {:induction false} SortDescSorted(xs: seq<Tally>)
    requires forall i, j :: 0 <= i < j < |xs| ==> xs[i].firstSeen < xs[j].firstSeen
    ensures SortedDesc(SortDesc(xs))
    decreases |xs|
  {
    if |xs| > 0 {
      var n := |xs| - 1;
      SortDescSorted(xs[..n]);
      forall y | y in SortDesc(xs[..n])
        ensures y.firstSeen < xs[n].firstSeen
      {
        assert y in multiset(SortDesc(xs[..n]));
        assert y in multiset(xs[..n]);
      }
      InsertDescSorted(SortDesc(xs[..n]), xs[n]);
    }
  }

  /** `_extract_error_patterns`: the five most common error types. */
  function ErrorPatterns(ms: seq<MemoryItem>): seq<string>
  {
    MapSeq(Take(SortDesc(Tallies(ms)), PatternCap), (t: Tally) => t.errorType)
  }

  /** An entry of the sorted dict names a key and its count, at the key's position. */
  predicate TallyOf(ms: seq<MemoryItem>, t: Tally)
  {
    t.firstSeen < |ErrorTypes(ms)| && ErrorTypes(ms)[t.firstSeen] == t.errorType
    && t.count == CountOfType(ms, t.errorType)
  }

  lemma SortedTallies(ms: seq<MemoryItem>)
    ensures SortedDesc(SortDesc(Tallies(ms)))
    ensures |SortDesc(Tallies(ms))| == |ErrorTypes(ms)|
    ensures forall p :: 0 <= p < |SortDesc(Tallies(ms))| ==> TallyOf(ms, SortDesc(Tallies(ms))[p])
    ensures forall e :: e in ErrorTypes(ms) ==>
              exists p :: 0 <= p < |SortDesc(Tallies(ms))| && SortDesc(Tallies(ms))[p].errorType == e
  {
    var tallies := Tallies(ms);
    var s := SortDesc(tallies);
    SortDescSorted(tallies);
    PermutationMembers(tallies, s);
    forall p | 0 <= p < |s|
      ensures TallyOf(ms, s[p])
    {
      var k :| 0 <= k < |tallies| && tallies[k] == s[p];
      assert TallyOf(ms, tallies[k]);
    }
    forall e | e in ErrorTypes(ms)
      ensures exists p :: 0 <= p < |s| && s[p].errorType == e
    {
      var k :| 0 <= k < |ErrorTypes(ms)| && ErrorTypes(ms)[k] == e;
      assert tallies[k] in s;
      var p :| 0 <= p < |s| && s[p] == tallies[k];
    }
  }

  /** The error patterns are at most five of the recorded error types, and five when
      there are that many. */
  lemma ErrorPatternsFromTypes(ms: seq<MemoryItem>)
    ensures |ErrorPatterns(ms)| == Min(|ErrorTypes(ms)|, PatternCap)
    ensures forall k :: 0 <= k < |ErrorPatterns(ms)| ==> ErrorPatterns(ms)[k] in ErrorTypes(ms)
  {
    var s := SortDesc(Tallies(ms));
    SortedTallies(ms);
    forall k | 0 <= k < |ErrorPatterns(ms)|
      ensures ErrorPatterns(ms)[k] in ErrorTypes(ms)
    {
      assert TallyOf(ms, s[k]);
    }
  }

  /** No error type is reported twice. */
  lemma ErrorPatternsDistinct(ms: seq<MemoryItem>)
    ensures forall a, b :: 0 <= a < b < |ErrorPatterns(ms)| ==> ErrorPatterns(ms)[a] != ErrorPatterns(ms)[b]
  {
    var s := SortDesc(Tallies(ms));
    var r := ErrorPatterns(ms);
    SortedTallies(ms);
    ErrorTypesSpec(ms);
    forall a, b | 0 <= a < b < |r|
      ensures r[a] != r[b]
    {
      assert TallyOf(ms, s[a]) && TallyOf(ms, s[b]) && Before(s[a], s[b]);
    }
  }

  /** The reported types come in non-increasing order of count, and types with equal
      counts in the order they were first seen. */
  lemma ErrorPatternsOrdered(ms: seq<MemoryItem>)
    ensures forall a, b :: 0 <= a < b < |ErrorPatterns(ms)| ==>
              CountOfType(ms, ErrorPatterns(ms)[a]) >= CountOfType(ms, ErrorPatterns(ms)[b])
    ensures forall a, b, i, j ::
              0 <= a < b < |ErrorPatterns(ms)| && 0 <= i < |ErrorTypes(ms)| && 0 <= j < |ErrorTypes(ms)|
              && ErrorTypes(ms)[i] == ErrorPatterns(ms)[a] && ErrorTypes(ms)[j] == ErrorPatterns(ms)[b]
              && CountOfType(ms, ErrorPatterns(ms)[a]) == CountOfType(ms, ErrorPatterns(ms)[b])
              ==> i < j
  {
    var types := ErrorTypes(ms);
    var s := SortDesc(Tallies(ms));
    var r := ErrorPatterns(ms);
    SortedTallies(ms);
    ErrorTypesSpec(ms);
    forall a, b | 0 <= a < b < |r|
      ensures CountOfType(ms, r[a]) >= CountOfType(ms, r[b])
    {
      assert TallyOf(ms, s[a]) && TallyOf(ms, s[b]) && Before(s[a], s[b]);
    }
    forall a, b, i, j | 0 <= a < b < |r| && 0 <= i < |types| && 0 <= j < |types|
        && types[i] == r[a] && types[j] == r[b] && CountOfType(ms, r[a]) == CountOfType(ms, r[b])
      ensures i < j
    {
      assert TallyOf(ms, s[a]) && TallyOf(ms, s[b]) && Before(s[a], s[b]);
    }
  }

  /** An entry of a sorted list that is not among its first `n` comes after all of them. */
  lemma SortedPastPrefix(s: seq<Tally>, n: nat, p: nat)
    requires SortedDesc(s) && p < |s|
    requires forall k :: 0 <= k < Min(|s|, n) ==> s[k].errorType != s[p].errorType
    ensures n <= p
    ensures forall k :: 0 <= k < n ==> s[k].count >= s[p].count
  {
    var e := s[p].errorType;
    assert forall k :: 0 <= k < n ==> Before(s[k], s[p]);
  }

  /** A recorded type that is not reported is left out only when five are reported, and
      occurs no more often than any of them. */
  lemma ErrorPatternsTop(ms: seq<MemoryItem>)
    ensures forall e :: e in ErrorTypes(ms) && e !in ErrorPatterns(ms) ==>
              |ErrorPatterns(ms)| == PatternCap
              && forall k :: 0 <= k < PatternCap ==> CountOfType(ms, ErrorPatterns(ms)[k]) >= CountOfType(ms, e)
  {
    var s := SortDesc(Tallies(ms));
    var r := ErrorPatterns(ms);
    SortedTallies(ms);
    forall e | e in ErrorTypes(ms) && e !in r
      ensures |r| == PatternCap
      ensures forall k :: 0 <= k < PatternCap ==> CountOfType(ms, r[k]) >= CountOfType(ms, e)
    {
      var p :| 0 <= p < |s| && s[p].errorType == e;
      assert TallyOf(ms, s[p]);
      assert forall k :: 0 <= k < |r| ==> r[k] == s[k].errorType;
      SortedPastPrefix(s, PatternCap, p);
      forall k | 0 <= k < PatternCap
        ensures CountOfType(ms, r[k]) >= CountOfType(ms, e)
      {
        assert TallyOf(ms, s[k]);
      }
    }
  }

  /** One more memory counted. */
  lemma CountStep(ms: seq<MemoryItem>, i: nat)
    requires i < |ms|
    ensures forall e :: CountOfType(ms[..i + 1], e) ==
              CountOfType(ms[..i], e) + (if ms[i].metadata.errorType == Some(e) then 1 else 0)
    ensures ErrorTypes(ms[..i + 1]) ==
              (if Truthy(ms[i].metadata.errorType) && ms[i].metadata.errorType.value !in ErrorTypes(ms[..i])
               then ErrorTypes(ms[..i]) + [ms[i].metadata.errorType.value] else ErrorTypes(ms[..i]))
  {
    assert ms[..i + 1][..i] == ms[..i];
  }

  /** `_extract_error_patterns`: the counting loop over a dict kept in insertion order,
      then the sort and the first five keys. */
  method ExtractErrorPatterns(memories: seq<MemoryItem>) returns (patterns: seq<string>)
    ensures patterns == ErrorPatterns(memories)
  {
    var counts: map<string, nat> := map[];
    var order: seq<string> := [];
    var i := 0;
    while i < |memories|
      invariant 0 <= i <= |memories|
      invariant order == ErrorTypes(memories[..i])
      invariant forall e :: e in counts <==> e in order
      invariant forall e :: e in counts ==> counts[e] == CountOfType(memories[..i], e)
    {
      CountStep(memories, i);
      ErrorTypesSpec(memories[..i]);
      var errorType := memories[i].metadata.errorType;
      if Truthy(errorType) {
        var e := errorType.value;
        if e in counts {
          counts := counts[e := counts[e] + 1];
        } else {
          order := order + [e];
          counts := counts[e := 1];
        }
      }
      i := i + 1;
    }
    assert memories[..i] == memories;
    var tallies := seq(|order|, k requires 0 <= k < |order| => Tally(order[k], counts[order[k]], k));
    assert tallies == Tallies(memories);
    var top := Take(SortDesc(tallies), PatternCap);
    patterns := seq(|top|, k requires 0 <= k < |top| => top[k].errorType);
  }

  // ---------- the user profile's last interaction ----------

  /** The truthy timestamps of the memories, in order. */
  function Timestamps(ms: seq<MemoryItem>): seq<string>
    decreases |ms|
  {
    if |ms| == 0 then []
    else
      var t := ms[|ms| - 1].metadata.timestamp;
      Timestamps(ms[..|ms| - 1]) + (if Truthy(t) then [t.value] else [])
  }

  lemma {:induction false} TimestampsMembers(ms: seq<MemoryItem>, t: string)
    ensures t in Timestamps(ms) <==> t != "" && exists i :: 0 <= i < |ms| && ms[i].metadata.timestamp == Some(t)
    decreases |ms|
  {
    if |ms| > 0 {
      var n := |ms| - 1;
      TimestampsMembers(ms[..n], t);
      if t != "" && ms[n].metadata.timestamp != Some(t) && exists i :: 0 <= i < |ms| && ms[i].metadata.timestamp == Some(t) {
        var i :| 0 <= i < |ms| && ms[i].metadata.timestamp == Some(t);
        assert ms[..n][i].metadata.timestamp == Some(t);
      }
    }
  }

  /** Python's `max` of a non-empty list of strings. */
  function MaxString(ts: seq<string>): string
    requires |ts| > 0
    decreases |ts|
  {
    if |ts| == 1 then ts[0]
    else
      var m := MaxString(ts[..|ts| - 1]);
      if StrLess(m, ts[|ts| - 1]) then ts[|ts| - 1] else m
  }

  lemma {:induction false} MaxStringSpec(ts: seq<string>)
    requires |ts| > 0
    ensures MaxString(ts) in ts
    ensures forall t :: t in ts ==> StrLessEq(t, MaxString(ts))
    decreases |ts|
  {
    if |ts| > 1 {
      var n := |ts| - 1;
      var m := MaxString(ts[..n]);
      MaxStringSpec(ts[..n]);
      assert ts == ts[..n] + [ts[n]];
      StrLessTotal(m, ts[n]);
      forall t | t in ts
        ensures StrLessEq(t, MaxString(ts))
      {
        if t in ts[..n] && StrLess(m, ts[n]) && t != m {
          StrLessTrans(t, m, ts[n]);
        }
      }
    }
  }

  /** `_get_last_interaction_time`. */
  function LastInteractionTime(ms: seq<MemoryItem>): Option<string>
  {
    if |ms| == 0 then None
    else
      var ts := Timestamps(ms);
      if |ts| == 0 then None else Some(MaxString(ts))
  }

  /** No time without a non-empty timestamp; otherwise the greatest one recorded. */
  lemma LastInteractionTimeSpec(ms: seq<MemoryItem>)
    ensures LastInteractionTime(ms).None? <==> forall i :: 0 <= i < |ms| ==> !Truthy(ms[i].metadata.timestamp)
    ensures LastInteractionTime(ms).Some? ==>
              var t := LastInteractionTime(ms).value;
              t != "" && (exists i :: 0 <= i < |ms| && ms[i].metadata.timestamp == Some(t))
    ensures LastInteractionTime(ms).Some? ==>
              forall i :: 0 <= i < |ms| && Truthy(ms[i].metadata.timestamp) ==>
                StrLessEq(ms[i].metadata.timestamp.value, LastInteractionTime(ms).value)
  {
    var ts := Timestamps(ms);
    forall i | 0 <= i < |ms| && Truthy(ms[i].metadata.timestamp)
      ensures ms[i].metadata.timestamp.value in ts
    {
      TimestampsMembers(ms, ms[i].metadata.timestamp.value);
    }
    if |ts| > 0 {
      MaxStringSpec(ts);
      TimestampsMembers(ms, MaxString(ts));
    }
  }

  // ---------- the memory object ----------

  /** The configuration keys the constructor reads, `None` where a key is absent. */
  datatype MemoryConfig = MemoryConfig(fallbackEnabled: Option<bool>, fallbackAfterErrors: Option<int>)

  datatype Health = Health(
    mem0Available: bool, fallbackEnabled: bool, errorCount: nat, degraded: bool,
    mem0Responsive: Option<bool>)

  /** `memory.search(query, user_id, limit)`. */
  type Search = (string, string, nat) -> Result<seq<MemoryItem>>
  /** `memory.add(messages, user_id, metadata)` for a user and an assistant message. */
  type Add = (string, string, string, Meta) -> Result<()>
  /** `_fallback_retrieve(user_message, user_id)`. */
  type FallbackRetrieve = (string, string) -> Context
  /** `_fallback_store(user_message, guidance_response, metadata, user_id, session_id)`. */
  type FallbackStore = (string, string, Meta, string, string) -> bool

  class ACSMentorMemory {
    const mem0Available: bool
    const fallbackEnabled: bool
    const degradationThreshold: int
    var errorCount: nat

    /** The counter never passes the threshold: it only grows while Mem0 is in use. */
    predicate Valid()
      reads this
    {
      errorCount <= (if degradationThreshold > 0 then degradationThreshold else 0)
    }

    /** Mem0 is in use while it initialised and has failed fewer times than the threshold. */
    predicate UsesMem0()
      reads this
    {
      mem0Available && errorCount < degradationThreshold
    }

    /** `mem0Initialised` says whether constructing the Mem0 client succeeded. */
    constructor(config: MemoryConfig, mem0Initialised: bool)
      ensures Valid()
      ensures mem0Available == mem0Initialised
      ensures fallbackEnabled == (if config.fallbackEnabled.Some? then config.fallbackEnabled.value else true)
      ensures degradationThreshold == (if config.fallbackAfterErrors.Some? then config.fallbackAfterErrors.value else 3)
      ensures errorCount == 0
    {
      mem0Available := mem0Initialised;
      fallbackEnabled := if config.fallbackEnabled.Some? then config.fallbackEnabled.value else true;
      degradationThreshold := if config.fallbackAfterErrors.Some? then config.fallbackAfterErrors.value else 3;
      errorCount := 0;
    }

    /** The context when Mem0 is not used or has failed. */
    function FallbackContext(userMessage: string, userId: string, fallbackRetrieve: FallbackRetrieve): Context
    {
      if fallbackEnabled then fallbackRetrieve(userMessage, userId) else EmptyContext
    }

    /** `retrieve_context`: `contextType` is accepted and not used. */
    method RetrieveContext(userMessage: string, userId: string, contextType: string,
                           search: Search, fallbackRetrieve: FallbackRetrieve) returns (c: Context)
      requires Valid()
      modifies this
      ensures Valid()
      ensures old(UsesMem0()) && search(userMessage, userId, RetrieveLimit).Success? ==>
                c == Categorized(search(userMessage, userId, RetrieveLimit).value)
      ensures !(old(UsesMem0()) && search(userMessage, userId, RetrieveLimit).Success?) ==>
                c == FallbackContext(userMessage, userId, fallbackRetrieve)
      ensures errorCount ==
                old(errorCount) + (if old(UsesMem0()) && search(userMessage, userId, RetrieveLimit).Failure? then 1 else 0)
    {
      if UsesMem0() {
        var results := search(userMessage, userId, RetrieveLimit);
        if results.Success? {
          c := CategorizeResults(results.value);
          return;
        }
        errorCount := errorCount + 1;
        c := FallbackContext(userMessage, userId, fallbackRetrieve);
      } else if fallbackEnabled {
        c := fallbackRetrieve(userMessage, userId);
      } else {
        c := EmptyContext;
      }
    }

    /** `_get_error_count`: how many of up to 50 hits for the error type record it; 0
        without Mem0 or when the search fails. */
    function ErrorCountFor(userId: string, errorType: string, search: Search): nat
    {
      if !mem0Available then 0
      else
        var results := search(errorType, userId, ErrorCountLimit);
        if results.Failure? then 0 else CountOfType(results.value, errorType)
    }

    /** The metadata `store_interaction` writes. */
    function StoredMetadata(metadata: Meta, userId: string, sessionId: string, now: string,
                            userMessage: string, response: string, search: Search): Meta
    {
      var prior := if metadata.errorDetected && Truthy(metadata.errorType)
                   then ErrorCountFor(userId, metadata.errorType.value, search) else 0;
      FullMetadata(metadata, sessionId, now, userMessage, response, prior)
    }

    /** `store_interaction`: `now` is the ISO timestamp `datetime.now()` gives. A failed
        Mem0 write falls back with the caller's metadata, not the completed one. */
    method StoreInteraction(userMessage: string, response: string, metadata: Meta, userId: string,
                            sessionId: string, now: string, search: Search, add: Add,
                            fallbackStore: FallbackStore) returns (stored: bool)
      requires Valid()
      modifies this
      ensures Valid()
      ensures var full := StoredMetadata(metadata, userId, sessionId, now, userMessage, response, search);
              stored ==
                if !old(UsesMem0()) then fallbackEnabled && fallbackStore(userMessage, response, full, userId, sessionId)
                else if add(userMessage, response, userId, full).Success? then true
                else fallbackEnabled && fallbackStore(userMessage, response, metadata, userId, sessionId)
      ensures errorCount == old(errorCount) +
                (if old(UsesMem0())
                    && add(userMessage, response, userId,
                           StoredMetadata(metadata, userId, sessionId, now, userMessage, response, search)).Failure?
                 then 1 else 0)
    {
      var fullMetadata := StoredMetadata(metadata, userId, sessionId, now, userMessage, response, search);
      if UsesMem0() {
        var added := add(userMessage, response, userId, fullMetadata);
        if added.Success? {
          return true;
        }
        errorCount := errorCount + 1;
        stored := fallbackEnabled && fallbackStore(userMessage, response, metadata, userId, sessionId);
      } else if fallbackEnabled {
        stored := fallbackStore(userMessage, response, fullMetadata, userId, sessionId);
      } else {
        stored := false;
      }
    }

    /** `health_check`: degraded exactly when the counter reached the threshold, and a
        responsiveness probe only when Mem0 initialised. */
    function HealthCheck(search: Search): (h: Health)
      reads this
      ensures h.degraded <==> errorCount >= degradationThreshold
      ensures h.degraded ==> !UsesMem0()
      ensures mem0Available && !h.degraded ==> UsesMem0()
      ensures h.mem0Responsive.Some? <==> mem0Available
      ensures h.mem0Responsive == Some(true) <==> mem0Available && search("test", "health_check", 1).Success?
      ensures h.errorCount == errorCount
    {
      Health(mem0Available, fallbackEnabled, errorCount, errorCount >= degradationThreshold,
             if mem0Available then Some(search("test", "health_check", 1).Success?) else None)
    }
  }
}
