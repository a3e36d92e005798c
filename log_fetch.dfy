/** Fetching and merging the log events of several CloudWatch log groups:
    `getLogsForLogGroupsConcurrently` in pkg/operations/operations_aws.go.
    Each goroutine pages through one log group and sends what it accumulated on a
    buffered channel; the caller then receives exactly N batches. The scheduler only
    decides the order in which the batches arrive, so the model takes that order as
    a parameter: `arrival[i]` is the log group whose batch is received i-th. */
module LogFetch {
  import opened Wrappers

  /** A `time.Time`, as nanoseconds since the Unix epoch. */
  datatype Time = Time(unixNano: int)

  /** An operational log query: optional start and end times. */
  datatype LogQuery = LogQuery(startTime: Option<Time>, endTime: Option<Time>)

  /** A `cloudwatchlogs.FilteredLogEvent`; both fields are pointers in the SDK. */
  datatype FilteredLogEvent = FilteredLogEvent(message: Option<string>, timestamp: Option<int>)

  /** A `LogEntry` of the result: the label of its source, the message, and the
      timestamp in epoch milliseconds. */
  datatype LogEntry = LogEntry(id: string, message: string, timestamp: int)

  /** A `FilterLogEventsInput`: the log group and the optional millisecond bounds. */
  datatype FilterRequest = FilterRequest(logGroupName: string, startTime: Option<int>, endTime: Option<int>)

  /** What `FilterLogEventsPages` delivers for one request: the pages handed to the
      callback, in order, and the error it returned, if any. A failure part-way
      leaves the pages received before it. */
  datatype PagedResponse = PagedResponse(pages: seq<seq<FilteredLogEvent>>, err: Option<string>)

  /** The CloudWatch Logs service, as an oracle. */
  type LogService = FilterRequest -> PagedResponse

  const NanosPerMilli := 1_000_000

  /** `aws.TimeUnixMilli`: `UnixNano() / 1e6` with Go's division, which truncates
      toward zero (so a time before the epoch rounds up). */
  function TimeUnixMilli(t: Time): (ms: int)
    ensures 0 <= t.unixNano ==> ms * NanosPerMilli <= t.unixNano < (ms + 1) * NanosPerMilli
    ensures t.unixNano < 0 ==> (ms - 1) * NanosPerMilli < t.unixNano <= ms * NanosPerMilli
  {
    if 0 <= t.unixNano then t.unixNano / NanosPerMilli
    else -((-t.unixNano) / NanosPerMilli)
  }

  /** The optional millisecond bound of an optional time. */
  function MilliBound(t: Option<Time>): (r: Option<int>)
    ensures r.None? <==> t.None?
    ensures t.Some? ==> r == Some(TimeUnixMilli(t.value))
  {
    match t
    case None => None
    case Some(time) => Some(TimeUnixMilli(time))
  }

  /** Milliseconds are monotonic in time: a later time never gets a smaller bound. */
  lemma TimeUnixMilliMonotonic(a: Time, b: Time)
    requires a.unixNano <= b.unixNano
    ensures TimeUnixMilli(a) <= TimeUnixMilli(b)
  {
  }

  /** The concatenation of a sequence of sequences. */
  function Flatten<T>(xss: seq<seq<T>>): seq<T>
    decreases |xss|
  {
    if xss == [] then [] else Flatten(xss[..|xss| - 1]) + xss[|xss| - 1]
  }

  /** The total number of elements of a sequence of sequences. */
  function TotalSize<T>(xss: seq<seq<T>>): nat
    decreases |xss|
  {
    if xss == [] then 0 else TotalSize(xss[..|xss| - 1]) + |xss[|xss| - 1]|
  }

  /** The events one goroutine accumulates and sends: every page it was handed,
      whether or not the paging ended in an error. */
  function Accumulated(resp: PagedResponse): seq<FilteredLogEvent> {
    Flatten(resp.pages)
  }

  /** The pagination callback of one goroutine: append each page to `ret`. */
  method CollectPages(resp: PagedResponse) returns (ret: seq<FilteredLogEvent>)
    ensures ret == Accumulated(resp)
    ensures |ret| == TotalSize(resp.pages)
  {
    ret := [];
    var p := 0;
    while p < |resp.pages|
      invariant 0 <= p <= |resp.pages|
      invariant ret == Flatten(resp.pages[..p])
      invariant |ret| == TotalSize(resp.pages[..p])
    {
      assert resp.pages[..p + 1][..p] == resp.pages[..p];
      ret := ret + resp.pages[p];
      p := p + 1;
    }
    assert resp.pages[..p] == resp.pages;
  }

  /** The entry for one received event: nil message and nil timestamp read as "" and 0. */
  function ToEntry(name: string, e: FilteredLogEvent): LogEntry {
    LogEntry(name, e.message.GetOr(""), e.timestamp.GetOr(0))
  }

  /** The entries of one received batch, all labelled `name`. */
  function Labelled(name: string, batch: seq<FilteredLogEvent>): (r: seq<LogEntry>)
    ensures |r| == |batch|
    ensures forall j :: 0 <= j < |batch| ==> r[j] == ToEntry(name, batch[j])
  {
    seq(|batch|, j requires 0 <= j < |batch| => ToEntry(name, batch[j]))
  }

  /** The merged result of receiving `received` in order: the i-th received batch is
      labelled `names[i]`, by its receive position. */
  function Merged(names: seq<string>, received: seq<seq<FilteredLogEvent>>): seq<LogEntry>
    requires |received| <= |names|
    decreases |received|
  {
    if received == [] then []
    else Merged(names, received[..|received| - 1]) + Labelled(names[|received| - 1], received[|received| - 1])
  }

  /** `0, 1, ..., n - 1`. */
  function Range(n: nat): (r: seq<nat>)
    ensures |r| == n && forall i :: 0 <= i < n ==> r[i] == i
  {
    seq(n, i => i)
  }

  /** `arrival` lists every one of the `n` sources exactly once. */
  predicate IsArrivalOrder(arrival: seq<nat>, n: nat) {
    |arrival| == n && multiset(arrival) == multiset(Range(n))
  }

  lemma ArrivalInRange(arrival: seq<nat>, n: nat)
    requires IsArrivalOrder(arrival, n)
    ensures forall i :: 0 <= i < |arrival| ==> arrival[i] < n
  {
    forall i | 0 <= i < |arrival| ensures arrival[i] < n {
      assert arrival[i] in multiset(arrival);
      assert arrival[i] in Range(n);
    }
  }

  /** The batches in the order they were received. */
  function Received<T>(batches: seq<T>, arrival: seq<nat>): (r: seq<T>)
    requires forall i :: 0 <= i < |arrival| ==> arrival[i] < |batches|
    ensures |r| == |arrival| && forall i :: 0 <= i < |arrival| ==> r[i] == batches[arrival[i]]
  {
    seq(|arrival|, i requires 0 <= i < |arrival| => batches[arrival[i]])
  }

  /** The batch each log group's goroutine sends, in the order of `logGroups`. */
  function SourceBatches(logGroups: seq<string>, startMilli: Option<int>, endMilli: Option<int>,
                         service: LogService): (r: seq<seq<FilteredLogEvent>>)
    ensures |r| == |logGroups|
    ensures forall j :: 0 <= j < |logGroups| ==>
      r[j] == Accumulated(service(FilterRequest(logGroups[j], startMilli, endMilli)))
  {
    seq(|logGroups|, j requires 0 <= j < |logGroups| =>
      Accumulated(service(FilterRequest(logGroups[j], startMilli, endMilli))))
  }

  /** What `getLogsForLogGroupsConcurrently` returns for the arrival order `arrival`. */
  function FetchAll(names: seq<string>, logGroups: seq<string>, startTime: Option<Time>, endTime: Option<Time>,
                    service: LogService, arrival: seq<nat>): seq<LogEntry>
    requires |logGroups| <= |names|
    requires IsArrivalOrder(arrival, |logGroups|)
  {
    ArrivalInRange(arrival, |logGroups|);
    Merged(names, Received(SourceBatches(logGroups, MilliBound(startTime), MilliBound(endTime), service), arrival))
  }

  /** The inner receive loop: append one entry per event, labelled `name`. */
  method AppendLabelled(logs: seq<LogEntry>, name: string, logEvents: seq<FilteredLogEvent>)
    returns (r: seq<LogEntry>)
    ensures r == logs + Labelled(name, logEvents)
  {
    r := logs;
    for k := 0 to |logEvents|
      invariant r == logs + Labelled(name, logEvents[..k])
    {
      r := r + [ToEntry(name, logEvents[k])];
    }
    assert logEvents[..|logEvents|] == logEvents;
  }

  /** `getLogsForLogGroupsConcurrently`: the goroutines each page through one log
      group (run here one after the other, filling the channel's buffer), then
      exactly `|logGroups|` receives append every event of each batch, labelled by
      the receive index. */
  method GetLogsForLogGroupsConcurrently(names: seq<string>, logGroups: seq<string>,
                                         startTime: Option<Time>, endTime: Option<Time>,
                                         service: LogService, arrival: seq<nat>)
    returns (logs: seq<LogEntry>)
    requires |logGroups| <= |names|
    requires IsArrivalOrder(arrival, |logGroups|)
    ensures logs == FetchAll(names, logGroups, startTime, endTime, service, arrival)
  {
    var startMilli := if startTime.Some? then Some(TimeUnixMilli(startTime.value)) else None;
    var endMilli := if endTime.Some? then Some(TimeUnixMilli(endTime.value)) else None;
    ghost var batches := SourceBatches(logGroups, startMilli, endMilli, service);

    // the goroutines: one send per log group
    var sent: seq<seq<FilteredLogEvent>> := [];
    for g := 0 to |logGroups|
      invariant sent == batches[..g]
    {
      var ret := CollectPages(service(FilterRequest(logGroups[g], startMilli, endMilli)));
      sent := sent + [ret];
    }
    assert sent == batches;

    // the receive loop
    ArrivalInRange(arrival, |logGroups|);
    ghost var received := Received(batches, arrival);
    logs := [];
    for i := 0 to |logGroups|
      invariant logs == Merged(names, received[..i])
    {
      var logEvents := sent[arrival[i]];
      logs := AppendLabelled(logs, names[i], logEvents);
      assert received[..i + 1][..i] == received[..i];
    }
    assert received[..|logGroups|] == received;
  }

  // ---------------------------------------------------------------------------
  // Properties of the merge

  lemma {:induction false} FlattenConcat<T>(a: seq<seq<T>>, b: seq<seq<T>>)
    ensures Flatten(a + b) == Flatten(a) + Flatten(b)
    decreases |b|
  {
    if b == [] {
      assert a + b == a;
    } else {
      var n := |b| - 1;
      assert (a + b)[..|a + b| - 1] == a + b[..n];
      FlattenConcat(a, b[..n]);
    }
  }

  /** The merge keeps every event and adds none: its length is the total size of the
      received batches. */
  lemma {:induction false} MergedLength(names: seq<string>, received: seq<seq<FilteredLogEvent>>)
    requires |received| <= |names|
    ensures |Merged(names, received)| == TotalSize(received)
    decreases |received|
  {
    if received != [] {
      MergedLength(names, received[..|received| - 1]);
    }
  }

  /** Event `j` of the `i`-th received batch sits at offset `TotalSize(received[..i]) + j`
      of the merge, labelled `names[i]`: every event appears, in receive order. */
  lemma {:induction false} MergedAt(names: seq<string>, received: seq<seq<FilteredLogEvent>>, i: nat, j: nat)
    requires |received| <= |names|
    requires i < |received| && j < |received[i]|
    ensures TotalSize(received[..i]) + j < |Merged(names, received)|
    ensures Merged(names, received)[TotalSize(received[..i]) + j] == ToEntry(names[i], received[i][j])
    decreases |received|
  {
    var n := |received| - 1;
    var prefix := received[..n];
    MergedLength(names, prefix);
    if i < n {
      assert prefix[..i] == received[..i];
      MergedAt(names, prefix, i, j);
    } else {
      assert received[..i] == prefix;
    }
  }

  /** A log entry without its label. */
  function Unlabelled(e: LogEntry): (string, int) {
    (e.message, e.timestamp)
  }

  /** The message and timestamp a received event becomes. */
  function Normalized(e: FilteredLogEvent): (string, int) {
    (e.message.GetOr(""), e.timestamp.GetOr(0))
  }

  /** `f` applied to every element. */
  function MapSeq<A, B>(f: A -> B, s: seq<A>): (r: seq<B>)
    ensures |r| == |s| && forall i :: 0 <= i < |s| ==> r[i] == f(s[i])
  {
    seq(|s|, i requires 0 <= i < |s| => f(s[i]))
  }

  /** Without labels, the merge is the received events in order. */
  lemma {:induction false} MergedUnlabelled(names: seq<string>, received: seq<seq<FilteredLogEvent>>)
    requires |received| <= |names|
    ensures MapSeq(Unlabelled, Merged(names, received)) == MapSeq(Normalized, Flatten(received))
    decreases |received|
  {
    if received != [] {
      var n := |received| - 1;
      MergedUnlabelled(names, received[..n]);
    }
  }

  lemma SplitAt<T>(b: seq<T>, k: nat)
    requires k < |b|
    ensures b == b[..k] + [b[k]] + b[k + 1..]
  {
  }

  /** Dropping the last element of `a` and a matching element of its permutation
      `b` leaves permutations. */
  lemma RemoveMatching<T>(a: seq<T>, b: seq<T>, k: nat)
    requires multiset(a) == multiset(b)
    requires a != [] && k < |b| && b[k] == a[|a| - 1]
    ensures multiset(a[..|a| - 1]) == multiset(b[..k] + b[k + 1..])
  {
    var n, x := |a| - 1, b[k];
    var rest := b[..k] + b[k + 1..];
    assert multiset(b) == multiset(rest) + multiset{x} by {
      SplitAt(b, k);
    }
    assert multiset(a) == multiset(a[..n]) + multiset{x} by {
      assert a == a[..n] + [x];
    }
    assert multiset(a[..n]) == multiset(a) - multiset{x};
    assert multiset(rest) == multiset(b) - multiset{x};
  }

  lemma MapSeqConcat<A, B>(f: A -> B, p: seq<A>, q: seq<A>)
    ensures MapSeq(f, p + q) == MapSeq(f, p) + MapSeq(f, q)
  {
  }

  /** Removing element `k` removes its image from the mapped multiset. */
  lemma MapSeqRemove<A, B>(f: A -> B, b: seq<A>, k: nat)
    requires k < |b|
    ensures multiset(MapSeq(f, b)) == multiset(MapSeq(f, b[..k] + b[k + 1..])) + multiset{f(b[k])}
  {
    SplitAt(b, k);
    MapSeqConcat(f, b[..k] + [b[k]], b[k + 1..]);
    MapSeqConcat(f, b[..k], [b[k]]);
    MapSeqConcat(f, b[..k], b[k + 1..]);
    assert MapSeq(f, [b[k]]) == [f(b[k])];
  }

  /** Applying a function to two permutations of each other gives permutations. */
  lemma {:induction false} MapSeqPermutation<A, B>(f: A -> B, a: seq<A>, b: seq<A>)
    requires multiset(a) == multiset(b)
    ensures multiset(MapSeq(f, a)) == multiset(MapSeq(f, b))
    decreases |a|
  {
    if a != [] {
      var n := |a| - 1;
      var x := a[n];
      assert x in multiset(b);
      var k :| 0 <= k < |b| && b[k] == x;
      var rest := b[..k] + b[k + 1..];
      RemoveMatching(a, b, k);
      MapSeqPermutation(f, a[..n], rest);
      MapSeqRemove(f, b, k);
      MapSeqRemove(f, a, n);
      assert a[..n] + a[n + 1..] == a[..n];
    }
  }

  lemma FlattenSingle<T>(x: seq<T>)
    ensures Flatten([x]) == x
  {
    assert [x][..0] == [];
  }

  /** Removing batch `k` removes its events from the flattened multiset. */
  lemma FlattenRemove<T>(b: seq<seq<T>>, k: nat)
    requires k < |b|
    ensures multiset(Flatten(b)) == multiset(Flatten(b[..k] + b[k + 1..])) + multiset(b[k])
  {
    var p, x, q := b[..k], b[k], b[k + 1..];
    calc {
      multiset(Flatten(b));
      { SplitAt(b, k); }
      multiset(Flatten(p + [x] + q));
      { FlattenConcat(p + [x], q); }
      multiset(Flatten(p + [x]) + Flatten(q));
      { FlattenConcat(p, [x]); FlattenSingle(x); }
      multiset(Flatten(p) + x + Flatten(q));
      multiset(Flatten(p) + Flatten(q)) + multiset(x);
      { FlattenConcat(p, q); }
      multiset(Flatten(p + q)) + multiset(x);
    }
  }

  /** Flattening two permutations of each other gives permutations. */
  lemma {:induction false} FlattenPermutation<T>(a: seq<seq<T>>, b: seq<seq<T>>)
    requires multiset(a) == multiset(b)
    ensures multiset(Flatten(a)) == multiset(Flatten(b))
    decreases |a|
  {
    if a != [] {
      var n := |a| - 1;
      var x := a[n];
      assert x in multiset(b);
      var k :| 0 <= k < |b| && b[k] == x;
      var rest := b[..k] + b[k + 1..];
      RemoveMatching(a, b, k);
      FlattenPermutation(a[..n], rest);
      FlattenRemove(b, k);
      FlattenRemove(a, n);
      assert a[..n] + a[n + 1..] == a[..n];
    }
  }

  /** Receiving the batches in any arrival order keeps the same batches. */
  lemma ReceivedPermutation<T>(batches: seq<T>, arrival: seq<nat>)
    requires IsArrivalOrder(arrival, |batches|)
    ensures forall i :: 0 <= i < |arrival| ==> arrival[i] < |batches|
    ensures multiset(Received(batches, arrival)) == multiset(batches)
  {
    ArrivalInRange(arrival, |batches|);
    if batches != [] {
      var pick := (i: nat) => if i < |batches| then batches[i] else batches[0];
      assert Received(batches, arrival) == MapSeq(pick, arrival);
      assert batches == MapSeq(pick, Range(|batches|));
      MapSeqPermutation(pick, arrival, Range(|batches|));
    }
  }

  /** Whatever order the batches arrive in, the result holds one entry per event of
      every log group's accumulated pages — the same messages and timestamps, each as
      often as it was fetched; only the order and the labels depend on the arrival
      order. A failed log group contributes the pages it received before failing. */
  lemma FetchAllContents(names: seq<string>, logGroups: seq<string>, startTime: Option<Time>, endTime: Option<Time>,
                         service: LogService, arrival: seq<nat>)
    requires |logGroups| <= |names|
    requires IsArrivalOrder(arrival, |logGroups|)
    ensures var batches := SourceBatches(logGroups, MilliBound(startTime), MilliBound(endTime), service);
            multiset(MapSeq(Unlabelled, FetchAll(names, logGroups, startTime, endTime, service, arrival)))
              == multiset(MapSeq(Normalized, Flatten(batches)))
  {
    var batches := SourceBatches(logGroups, MilliBound(startTime), MilliBound(endTime), service);
    ReceivedPermutation(batches, arrival);
    var received := Received(batches, arrival);
    MergedUnlabelled(names, received);
    FlattenPermutation(received, batches);
    MapSeqPermutation(Normalized, Flatten(received), Flatten(batches));
  }

  /** Partial failure is contained: with sources A (two events), B (failed before its
      first page) and C (one event), every arrival order gives exactly the three
      events of A and C, and no error. */
  lemma PartialFailureScenario(service: LogService, a1: FilteredLogEvent, a2: FilteredLogEvent,
                               c1: FilteredLogEvent, arrival: seq<nat>)
    requires service(FilterRequest("A", None, None)) == PagedResponse([[a1, a2]], None)
    requires service(FilterRequest("B", None, None)).pages == []
    requires service(FilterRequest("C", None, None)) == PagedResponse([[c1]], None)
    requires IsArrivalOrder(arrival, 3)
    ensures var logs := FetchAll(["A", "B", "C"], ["A", "B", "C"], None, None, service, arrival);
            |logs| == 3 &&
            multiset(MapSeq(Unlabelled, logs)) == multiset{Normalized(a1), Normalized(a2), Normalized(c1)}
  {
    var groups := ["A", "B", "C"];
    var batches := SourceBatches(groups, None, None, service);
    assert Flatten([[a1, a2]]) == [a1, a2] by { assert [[a1, a2]][..0] == []; }
    assert Flatten([[c1]]) == [c1] by { assert [[c1]][..0] == []; }
    assert batches == [[a1, a2], [], [c1]];
    assert Flatten(batches) == [a1, a2, c1] by {
      assert batches[..2][..1] == [[a1, a2]];
      assert batches[..2] == [[a1, a2], []];
    }
    FetchAllContents(groups, groups, None, None, service, arrival);
    assert MapSeq(Normalized, [a1, a2, c1]) == [Normalized(a1), Normalized(a2), Normalized(c1)];
  }

  /** Labels follow the receive position, not the producing log group: with groups
      `gx` (labelled "x", no pages) and `gy` (labelled "y", one event), when `gy`'s
      batch arrives first its event is labelled "x". */
  lemma MislabelWhenReversed(service: LogService, e: FilteredLogEvent)
    requires service(FilterRequest("gx", None, None)).pages == []
    requires service(FilterRequest("gy", None, None)).pages == [[e]]
    ensures IsArrivalOrder([1, 0], 2) &&
            FetchAll(["x", "y"], ["gx", "gy"], None, None, service, [1, 0]) == [ToEntry("x", e)]
  {
    var arrival: seq<nat> := [1, 0];
    assert Range(2) == [0, 1];
    assert multiset(arrival) == multiset(Range(2));
    var names := ["x", "y"];
    var batches := SourceBatches(["gx", "gy"], None, None, service);
    FlattenSingle([e]);
    assert batches == [[], [e]];
    var received := Received(batches, arrival);
    assert received == [[e], []];
    MergedLength(names, received);
    assert TotalSize(received) == 1 by {
      assert received[..1] == [[e]] && received[..1][..0] == [];
      assert TotalSize(received) == TotalSize(received[..1]) + |received[1]|;
      assert TotalSize(received[..1]) == TotalSize(received[..1][..0]) + |received[..1][0]|;
    }
    MergedAt(names, received, 0, 0);
    assert received[..0] == [];
  }
}
