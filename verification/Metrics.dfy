/** Rolling-window samples, their percentiles and their average. */
module Metrics {
  import opened Common

  const WINDOW_MS: nat := 300000

  datatype Sample = Sample(value: int, ts: int)

  datatype ToolMetric = ToolMetric(count: nat, totalMs: int, samples: seq<Sample>)

  /** What is left after dropping old samples from the front. */
  function DropOld(arr: seq<Sample>, cutoff: int): seq<Sample> {
    if arr != [] && arr[0].ts < cutoff then DropOld(arr[1..], cutoff) else arr
  }

  function Fresh(arr: seq<Sample>, cutoff: int): seq<Sample> {
    if arr == [] then [] else (if arr[0].ts < cutoff then [] else [arr[0]]) + Fresh(arr[1..], cutoff)
  }

  predicate InTimeOrder(arr: seq<Sample>) {
    forall i, j :: 0 <= i < j < |arr| ==> arr[i].ts <= arr[j].ts
  }

  /** No sample that is too old stands behind one that is not. */
  predicate OldFirst(arr: seq<Sample>, cutoff: int) {
    forall i, j :: 0 <= i < j < |arr| && arr[j].ts < cutoff ==> arr[i].ts < cutoff
  }

  lemma {:induction false} FreshSize(arr: seq<Sample>, cutoff: int)
    ensures |Fresh(arr, cutoff)| <= |arr|
    ensures |Fresh(arr, cutoff)| == |arr| ==> forall i :: 0 <= i < |arr| ==> arr[i].ts >= cutoff
    ensures (forall i :: 0 <= i < |arr| ==> arr[i].ts >= cutoff) ==> Fresh(arr, cutoff) == arr
  {
    if arr != [] {
      FreshSize(arr[1..], cutoff);
      assert arr == [arr[0]] + arr[1..];
      assert (forall i :: 0 <= i < |arr| ==> arr[i].ts >= cutoff)
        <==> arr[0].ts >= cutoff && (forall i :: 0 <= i < |arr[1..]| ==> arr[1..][i].ts >= cutoff);
    }
  }

  lemma OldFirstTail(arr: seq<Sample>, cutoff: int)
    requires arr != [] && arr[0].ts < cutoff
    ensures OldFirst(arr, cutoff) <==> OldFirst(arr[1..], cutoff)
  {
    var rest := arr[1..];
    assert forall i :: 0 <= i < |rest| ==> rest[i] == arr[i + 1];
    if OldFirst(rest, cutoff) {
      forall i, j | 0 <= i < j < |arr| && arr[j].ts < cutoff ensures arr[i].ts < cutoff {
        if i > 0 { assert rest[i - 1] == arr[i] && rest[j - 1] == arr[j]; }
      }
    }
  }

  /** Dropping from the front is dropping every old sample, exactly when the old ones come first. */
  lemma {:induction false} PruneIsFilter(arr: seq<Sample>, cutoff: int)
    ensures DropOld(arr, cutoff) == Fresh(arr, cutoff) <==> OldFirst(arr, cutoff)
  {
    if arr == [] {
    } else if arr[0].ts < cutoff {
      PruneIsFilter(arr[1..], cutoff);
      assert [] + Fresh(arr[1..], cutoff) == Fresh(arr[1..], cutoff);
      OldFirstTail(arr, cutoff);
    } else {
      FreshSize(arr, cutoff);
    }
  }

  /** A call of the recorder for one tool. */
  datatype Recording = Recording(tool: string, durationMs: int, time: int)

  function MetricOf(tools: map<string, ToolMetric>, tool: string): ToolMetric {
    if tool in tools then tools[tool] else ToolMetric(0, 0, [])
  }

  function Recorded(tools: map<string, ToolMetric>, q: Recording): map<string, ToolMetric> {
    var m := MetricOf(tools, q.tool);
    tools[q.tool := ToolMetric(m.count + 1, m.totalMs + q.durationMs,
                               DropOld(m.samples + [Sample(q.durationMs, q.time)], q.time - WINDOW_MS))]
  }

  method Prune(arr: seq<Sample>, now: int) returns (kept: seq<Sample>)
    ensures kept == DropOld(arr, now - WINDOW_MS)
  {
    kept := arr;
    while |kept| > 0 && kept[0].ts < now - WINDOW_MS
      invariant DropOld(kept, now - WINDOW_MS) == DropOld(arr, now - WINDOW_MS)
      decreases |kept|
    {
      kept := kept[1..];
    }
  }

  class Collector {
    var tools: map<string, ToolMetric>
    var queueWaits: seq<Sample>
    var leaseAcquires: seq<Sample>

    constructor ()
      ensures tools == map[] && queueWaits == [] && leaseAcquires == []
    {
      tools, queueWaits, leaseAcquires := map[], [], [];
    }

    /** Books that match a log match it with this execution added; other tools are not affected. */
    method RecordToolExecution(tool: string, durationMs: int, now: int)
      modifies this`tools
      ensures tool in tools && AddsToBooks(MetricOf(old(tools), tool), Sample(durationMs, now), tools[tool])
      ensures forall other :: other != tool ==>
                (other in tools <==> other in old(tools)) && MetricOf(tools, other) == MetricOf(old(tools), other)
      ensures tools == Recorded(old(tools), Recording(tool, durationMs, now))
    {
      var m := MetricOf(tools, tool);
      var kept := Prune(m.samples + [Sample(durationMs, now)], now);
      tools := tools[tool := ToolMetric(m.count + 1, m.totalMs + durationMs, kept)];
      RecordedMeans(old(tools), Recording(tool, durationMs, now), tools);
    }

    method RecordQueueWait(ms: int, now: int)
      modifies this`queueWaits
      ensures queueWaits == DropOld(old(queueWaits) + [Sample(ms, now)], now - WINDOW_MS)
    {
      queueWaits := Prune(queueWaits + [Sample(ms, now)], now);
    }

    method RecordLeaseAcquire(ms: int, now: int)
      modifies this`leaseAcquires
      ensures leaseAcquires == DropOld(old(leaseAcquires) + [Sample(ms, now)], now - WINDOW_MS)
    {
      leaseAcquires := Prune(leaseAcquires + [Sample(ms, now)], now);
    }
  }

  // ----- runs

  function Table(qs: seq<Recording>): map<string, ToolMetric> {
    if qs == [] then map[] else Recorded(Table(qs[..|qs| - 1]), qs[|qs| - 1])
  }

  function Log(qs: seq<Recording>, tool: string): seq<Sample> {
    if qs == [] then []
    else
      var q := qs[|qs| - 1];
      Log(qs[..|qs| - 1], tool) + if q.tool == tool then [Sample(q.durationMs, q.time)] else []
  }

  function Total(log: seq<Sample>): int {
    if log == [] then 0 else Total(log[..|log| - 1]) + log[|log| - 1].value
  }

  predicate Monotone(qs: seq<Recording>) {
    forall i, j :: 0 <= i < j < |qs| ==> qs[i].time <= qs[j].time
  }

  lemma {:induction false} LogInOrder(qs: seq<Recording>, tool: string)
    requires Monotone(qs)
    ensures InTimeOrder(Log(qs, tool))
    ensures qs != [] ==> forall i :: 0 <= i < |Log(qs, tool)| ==> Log(qs, tool)[i].ts <= qs[|qs| - 1].time
  {
    if qs != [] {
      var p := qs[..|qs| - 1];
      LogInOrder(p, tool);
      if p != [] { assert p[|p| - 1].time <= qs[|qs| - 1].time; }
    }
  }

  lemma {:induction false} FreshSnoc(arr: seq<Sample>, s: Sample, cutoff: int)
    ensures Fresh(arr + [s], cutoff) == Fresh(arr, cutoff) + if s.ts < cutoff then [] else [s]
  {
    if arr == [] {
      assert arr + [s] == [s];
      assert [s][1..] == [];
    } else {
      var all, tail := arr + [s], if s.ts < cutoff then [] else [s];
      var head := if arr[0].ts < cutoff then [] else [arr[0]];
      assert all[0] == arr[0] && all[1..] == arr[1..] + [s];
      FreshSnoc(arr[1..], s, cutoff);
      assert Fresh(all, cutoff) == head + (Fresh(arr[1..], cutoff) + tail) == head + Fresh(arr[1..], cutoff) + tail;
    }
  }

  lemma FreshCons(x: Sample, rest: seq<Sample>, cutoff: int)
    ensures Fresh([x] + rest, cutoff) == (if x.ts < cutoff then [] else [x]) + Fresh(rest, cutoff)
  {
    assert ([x] + rest)[1..] == rest;
  }

  lemma {:induction false} FreshTwice(arr: seq<Sample>, c1: int, c2: int)
    requires c1 <= c2
    ensures Fresh(Fresh(arr, c1), c2) == Fresh(arr, c2)
  {
    if arr != [] {
      FreshTwice(arr[1..], c1, c2);
      var rest := Fresh(arr[1..], c1);
      if arr[0].ts < c1 {
        assert Fresh(arr, c1) == [] + rest == rest;
        assert Fresh(arr, c2) == [] + Fresh(arr[1..], c2) == Fresh(arr[1..], c2);
      } else {
        FreshCons(arr[0], rest, c2);
        assert Fresh(arr, c1) == [arr[0]] + rest;
      }
    }
  }

  lemma {:induction false} FreshMembers(arr: seq<Sample>, cutoff: int)
    ensures forall s :: s in Fresh(arr, cutoff) ==> s in arr
  {
    if arr != [] {
      FreshMembers(arr[1..], cutoff);
      assert forall s :: s in arr[1..] ==> s in arr;
    }
  }

  lemma OrderedCons(x: Sample, arr: seq<Sample>)
    requires InTimeOrder(arr) && forall s :: s in arr ==> x.ts <= s.ts
    ensures InTimeOrder([x] + arr)
  {
    var all := [x] + arr;
    forall i, j | 0 <= i < j < |all| ensures all[i].ts <= all[j].ts {
      assert all[j] == arr[j - 1] && (i > 0 ==> all[i] == arr[i - 1]);
    }
  }

  lemma {:induction false} FreshKeepsOrder(arr: seq<Sample>, cutoff: int)
    requires InTimeOrder(arr)
    ensures InTimeOrder(Fresh(arr, cutoff))
  {
    if arr != [] {
      var rest := Fresh(arr[1..], cutoff);
      FreshKeepsOrder(arr[1..], cutoff);
      if arr[0].ts < cutoff {
        assert Fresh(arr, cutoff) == rest;
      } else {
        FreshMembers(arr[1..], cutoff);
        assert forall s :: s in arr[1..] ==> arr[0].ts <= s.ts;
        OrderedCons(arr[0], rest);
      }
    }
  }

  lemma TotalSnoc(log: seq<Sample>, s: Sample)
    ensures Total(log + [s]) == Total(log) + s.value
  {
    assert (log + [s])[..|log|] == log;
  }

  /** The entries of the window before the last one. */
  function Window(log: seq<Sample>): seq<Sample> {
    if log == [] then [] else Fresh(log, log[|log| - 1].ts - WINDOW_MS)
  }

  /** Count and total over the whole log; samples of the window before its last entry. */
  ghost predicate Books(log: seq<Sample>, m: ToolMetric) {
    m.count == |log| && m.totalMs == Total(log) && m.samples == Window(log)
  }

  /** Whatever log `m` keeps the books of, `m'` keeps those of the log with `s` added. */
  ghost predicate AddsToBooks(m: ToolMetric, s: Sample, m': ToolMetric) {
    forall log :: Books(log, m) && InTimeOrder(log + [s]) ==> Books(log + [s], m')
  }

  lemma NextEntry(log: seq<Sample>, s: Sample, m: ToolMetric)
    requires Books(log, m) && InTimeOrder(log + [s])
    ensures Books(log + [s], ToolMetric(m.count + 1, m.totalMs + s.value, DropOld(m.samples + [s], s.ts - WINDOW_MS)))
  {
    TotalSnoc(log, s);
    WindowMoves(log, s);
  }

  lemma RecordedEntry(tools: map<string, ToolMetric>, q: Recording, log: seq<Sample>)
    requires Books(log, MetricOf(tools, q.tool)) && InTimeOrder(log + [Sample(q.durationMs, q.time)])
    ensures Books(log + [Sample(q.durationMs, q.time)], MetricOf(Recorded(tools, q), q.tool))
  {
    NextEntry(log, Sample(q.durationMs, q.time), MetricOf(tools, q.tool));
  }

  lemma RecordedMeans(was: map<string, ToolMetric>, q: Recording, tools: map<string, ToolMetric>)
    requires tools == Recorded(was, q)
    ensures q.tool in tools && AddsToBooks(MetricOf(was, q.tool), Sample(q.durationMs, q.time), tools[q.tool])
    ensures forall other :: other != q.tool ==>
              (other in tools <==> other in was) && MetricOf(tools, other) == MetricOf(was, other)
  {
    RecordedBooks(was, q);
  }

  lemma RecordedBooks(tools: map<string, ToolMetric>, q: Recording)
    ensures AddsToBooks(MetricOf(tools, q.tool), Sample(q.durationMs, q.time), MetricOf(Recorded(tools, q), q.tool))
  {
    forall log | Books(log, MetricOf(tools, q.tool)) && InTimeOrder(log + [Sample(q.durationMs, q.time)])
      ensures Books(log + [Sample(q.durationMs, q.time)], MetricOf(Recorded(tools, q), q.tool))
    {
      RecordedEntry(tools, q, log);
    }
  }

  /** The books of a tool after any run: how often it ran and for how long since the start, and
      the samples of the window before its last execution and no others. */
  lemma {:induction false} BooksMatchLog(qs: seq<Recording>, tool: string)
    requires Monotone(qs)
    ensures tool in Table(qs) <==> Log(qs, tool) != []
    ensures Books(Log(qs, tool), MetricOf(Table(qs), tool))
  {
    if qs != [] {
      var p, q := qs[..|qs| - 1], qs[|qs| - 1];
      BooksMatchLog(p, tool);
      if q.tool == tool {
        LogInOrder(qs, tool);
        RecordedEntry(Table(p), q, Log(p, tool));
      } else {
        assert Log(qs, tool) == Log(p, tool) + [] == Log(p, tool);
      }
    }
  }

  /** One more sample: pruning the kept samples again gives the window of the longer log. */
  lemma WindowMoves(log: seq<Sample>, s: Sample)
    requires InTimeOrder(log + [s])
    ensures DropOld(Window(log) + [s], s.ts - WINDOW_MS) == Window(log + [s])
  {
    var all := log + [s];
    assert all[|all| - 1] == s;
    var cutoff := s.ts - WINDOW_MS;
    if log == [] {
      assert [] + [s] == [s] && log + [s] == [s];
      assert Fresh([s], cutoff) == [s] + Fresh([], cutoff);
    } else {
      var c1 := log[|log| - 1].ts - WINDOW_MS;
      assert all[|log| - 1] == log[|log| - 1] && all[|log|] == s;
      assert c1 <= cutoff;
      var kept := Fresh(log, c1);
      FreshTwice(log, c1, cutoff);
      FreshSnoc(kept, s, cutoff);
      FreshSnoc(log, s, cutoff);
      FreshSnoc(log, s, c1);
      FreshKeepsOrder(all, c1);
      assert kept + [s] == Fresh(all, c1);
      PruneIsFilter(kept + [s], cutoff);
    }
  }

  // ----- percentiles

  predicate Sorted(s: seq<int>) {
    forall i, j :: 0 <= i < j < |s| ==> s[i] <= s[j]
  }

  function Insert(x: int, s: seq<int>): seq<int> {
    if s == [] || x <= s[0] then [x] + s else [s[0]] + Insert(x, s[1..])
  }

  /** `sort((a, b) => a - b)`. */
  function Sort(s: seq<int>): seq<int> {
    if s == [] then [] else Insert(s[0], Sort(s[1..]))
  }

  function CountAtMost(s: seq<int>, v: int): nat {
    if s == [] then 0 else (if s[0] <= v then 1 else 0) + CountAtMost(s[1..], v)
  }

  function CountBelow(s: seq<int>, v: int): nat {
    if s == [] then 0 else (if s[0] < v then 1 else 0) + CountBelow(s[1..], v)
  }

  lemma {:induction false} InsertMembers(x: int, s: seq<int>)
    ensures |Insert(x, s)| == |s| + 1
    ensures forall y :: y in Insert(x, s) <==> y == x || y in s
  {
    if s != [] && x > s[0] {
      InsertMembers(x, s[1..]);
      assert forall y :: y in s <==> y == s[0] || y in s[1..];
    }
  }

  lemma {:induction false} InsertSorts(x: int, s: seq<int>)
    requires Sorted(s)
    ensures Sorted(Insert(x, s))
  {
    if s != [] && x > s[0] {
      InsertSorts(x, s[1..]);
      InsertMembers(x, s[1..]);
      var r := Insert(x, s[1..]);
      forall i | 0 <= i < |r| ensures s[0] <= r[i] {
        assert r[i] in r;
      }
    }
  }

  lemma {:induction false} InsertCounts(x: int, s: seq<int>, v: int)
    ensures CountAtMost(Insert(x, s), v) == CountAtMost(s, v) + if x <= v then 1 else 0
    ensures CountBelow(Insert(x, s), v) == CountBelow(s, v) + if x < v then 1 else 0
  {
    if s == [] || x <= s[0] {
      assert ([x] + s)[1..] == s;
    } else {
      InsertCounts(x, s[1..], v);
      var r := Insert(x, s[1..]);
      assert ([s[0]] + r)[1..] == r;
    }
  }

  lemma {:induction false} SortKeeps(s: seq<int>, v: int)
    ensures Sorted(Sort(s)) && |Sort(s)| == |s|
    ensures forall y :: y in Sort(s) <==> y in s
    ensures CountAtMost(Sort(s), v) == CountAtMost(s, v) && CountBelow(Sort(s), v) == CountBelow(s, v)
  {
    if s != [] {
      SortKeeps(s[1..], v);
      InsertSorts(s[0], Sort(s[1..]));
      InsertMembers(s[0], Sort(s[1..]));
      InsertCounts(s[0], Sort(s[1..]), v);
      assert forall y :: y in s <==> y == s[0] || y in s[1..];
    }
  }

  /** `Math.ceil((p / 100) * n)`. */
  function Rank(p: nat, n: nat): nat {
    (p * n + 99) / 100
  }

  lemma RankBounds(p: nat, q: nat, n: nat)
    requires p <= q <= 100
    ensures Rank(p, n) <= Rank(q, n) <= n
  {
    assert p * n <= q * n <= 100 * n;
  }

  function Percentile(sorted: seq<int>, p: nat): int
    requires p <= 100
  {
    if sorted == [] then 0
    else
      var idx := Rank(p, |sorted|) - 1;
      RankBounds(p, p, |sorted|);
      sorted[if idx > 0 then idx else 0]
  }

  lemma {:induction false} CountsAtIndex(s: seq<int>, k: nat)
    requires Sorted(s) && k < |s|
    ensures CountAtMost(s, s[k]) >= k + 1 && CountBelow(s, s[k]) <= k
  {
    var t := s[1..];
    if k > 0 {
      assert t[k - 1] == s[k];
      CountsAtIndex(t, k - 1);
    } else {
      NoneBelow(s, s[0]);
    }
  }

  lemma {:induction false} NoneBelow(s: seq<int>, v: int)
    requires forall i :: 0 <= i < |s| ==> v <= s[i]
    ensures CountBelow(s, v) == 0
  {
    if s != [] {
      NoneBelow(s[1..], v);
    }
  }

  /** `v` is a sample, at least `p` per cent of the samples are not larger, and fewer are smaller. */
  predicate IsNearestRank(vals: seq<int>, p: nat, v: int) {
    && v in vals
    && p * |vals| <= 100 * CountAtMost(vals, v)
    && (CountBelow(vals, v) == 0 || 100 * CountBelow(vals, v) < p * |vals|)
  }

  /** The rank is the least number of samples that makes up the share. */
  lemma RankIsLeast(p: nat, n: nat)
    requires p <= 100
    ensures 100 * (Rank(p, n) - 1) < p * n <= 100 * Rank(p, n)
  {
  }

  /** The nearest-rank percentile, counted in the unsorted samples. */
  lemma PercentileIsNearestRank(vals: seq<int>, p: nat)
    requires vals != [] && p <= 100
    ensures IsNearestRank(vals, p, Percentile(Sort(vals), p))
  {
    var s := Sort(vals);
    SortKeeps(vals, 0);
    RankBounds(p, p, |vals|);
    RankIsLeast(p, |vals|);
    var idx := Rank(p, |vals|) - 1;
    var k := if idx > 0 then idx else 0;
    assert s[k] in s;
    CountsAtIndex(s, k);
    SortKeeps(vals, s[k]);
  }

  lemma PercentilesAreOrdered(vals: seq<int>, p: nat, q: nat)
    requires p <= q <= 100
    ensures Percentile(Sort(vals), p) <= Percentile(Sort(vals), q)
  {
    SortKeeps(vals, 0);
    RankBounds(p, q, |vals|);
  }

  // ----- the average

  function Sum(s: seq<int>): int {
    if s == [] then 0 else s[0] + Sum(s[1..])
  }

  lemma {:induction false} InsertSum(x: int, s: seq<int>)
    ensures Sum(Insert(x, s)) == x + Sum(s)
  {
    if s == [] || x <= s[0] {
      assert ([x] + s)[1..] == s;
    } else {
      InsertSum(x, s[1..]);
      assert ([s[0]] + Insert(x, s[1..]))[1..] == Insert(x, s[1..]);
    }
  }

  lemma {:induction false} SortSum(s: seq<int>)
    ensures Sum(Sort(s)) == Sum(s)
  {
    if s != [] {
      SortSum(s[1..]);
      InsertSum(s[0], Sort(s[1..]));
    }
  }

  /** `Math.round(sum / n)`: halves go up. */
  function RoundedAverage(s: seq<int>): int {
    if s == [] then 0 else (2 * Sum(s) + |s|) / (2 * |s|)
  }

  lemma {:induction false} SumBounds(s: seq<int>, lo: int, hi: int)
    requires forall i :: 0 <= i < |s| ==> lo <= s[i] <= hi
    ensures |s| * lo <= Sum(s) <= |s| * hi
  {
    if s != [] {
      SumBounds(s[1..], lo, hi);
    }
  }

  lemma FloorBetween(x: int, n: int, lo: int, hi: int)
    requires n > 0 && n * lo <= x <= n * hi
    ensures lo <= (2 * x + n) / (2 * n) <= hi
  {
    var y, d := 2 * x + n, 2 * n;
    var q := y / d;
    assert y == d * q + y % d;
    MulOrder(d, q, lo - 1);
    MulOrder(d, hi + 1, q);
  }

  lemma AverageIsBetween(s: seq<int>, lo: int, hi: int)
    requires s != [] && forall i :: 0 <= i < |s| ==> lo <= s[i] <= hi
    ensures lo <= RoundedAverage(s) <= hi
  {
    SumBounds(s, lo, hi);
    FloorBetween(Sum(s), |s|, lo, hi);
  }

  /** The average is off by half a unit at most, upwards if by just that. */
  lemma AverageIsNearest(s: seq<int>)
    requires s != []
    ensures -|s| < 2 * (|s| * RoundedAverage(s) - Sum(s)) <= |s|
  {
    var y, d := 2 * Sum(s) + |s|, 2 * |s|;
    assert y == d * (y / d) + y % d;
    assert 2 * (|s| * (y / d)) == d * (y / d);
  }

  datatype Summary = Summary(count: nat, p50: int, p95: int, p99: int, avg: int)

  function Values(samples: seq<Sample>): (vals: seq<int>)
    ensures |vals| == |samples| && forall i :: 0 <= i < |vals| ==> vals[i] == samples[i].value
  {
    if samples == [] then [] else [samples[0].value] + Values(samples[1..])
  }

  function Stats(samples: seq<Sample>): Summary {
    var vals := Sort(Values(samples));
    Summary(|vals|, Percentile(vals, 50), Percentile(vals, 95), Percentile(vals, 99), RoundedAverage(vals))
  }

  /** What the fields of a snapshot are, for the samples as they came. */
  lemma StatsAreExact(samples: seq<Sample>)
    requires samples != []
    ensures var st, vals := Stats(samples), Values(samples);
            && IsNearestRank(vals, 50, st.p50) && IsNearestRank(vals, 95, st.p95) && IsNearestRank(vals, 99, st.p99)
            && st.count == |vals|
            && -|vals| < 2 * (|vals| * st.avg - Sum(vals)) <= |vals|
  {
    var vals := Values(samples);
    SortKeeps(vals, 0);
    PercentileIsNearestRank(vals, 50);
    PercentileIsNearestRank(vals, 95);
    PercentileIsNearestRank(vals, 99);
    SortSum(vals);
    AverageIsNearest(Sort(vals));
  }

  /** What a snapshot shows is consistent: the percentiles are ordered, everything lies between the
      least and the largest sample, and nothing but zeros is shown for no samples. */
  lemma StatsAreConsistent(samples: seq<Sample>, lo: int, hi: int)
    requires forall i :: 0 <= i < |samples| ==> lo <= samples[i].value <= hi
    ensures var st := Stats(samples);
            && st.count == |samples|
            && (samples == [] ==> st == Summary(0, 0, 0, 0, 0))
            && (samples != [] ==> lo <= st.p50 <= st.p95 <= st.p99 <= hi && lo <= st.avg <= hi)
  {
    var vals := Values(samples);
    SortKeeps(vals, 0);
    if samples != [] {
      PercentilesAreOrdered(vals, 50, 95);
      PercentilesAreOrdered(vals, 95, 99);
      PercentileIsNearestRank(vals, 50);
      PercentileIsNearestRank(vals, 99);
      forall i | 0 <= i < |Sort(vals)| ensures lo <= Sort(vals)[i] <= hi {
        assert Sort(vals)[i] in Sort(vals);
      }
      AverageIsBetween(Sort(vals), lo, hi);
    }
  }
}
