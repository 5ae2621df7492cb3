/** Counters and latency histograms, and what is rendered of them (internal/obs/metrics.go:11-127).
    Samples are reals; the text format of the rendering is not modelled. */
module Histograms {
  import opened Seqs
  import opened Sorting
  import opened Metrics

  const MAX_SAMPLES := 1024

  /** The last 1024 samples of a history. */
  function Window(history: seq<real>): seq<real> {
    if |history| <= MAX_SAMPLES then history else history[|history| - MAX_SAMPLES..]
  }

  /** The buffer after one more sample: shifted left first when it is full. */
  function Recorded(values: seq<real>, x: real): seq<real> {
    (if |values| >= MAX_SAMPLES then values[1..][..MAX_SAMPLES - 1] else values) + [x]
  }

  /** A full buffer shifted and extended is still the window of the whole history. */
  lemma RecordedIsWindow(history: seq<real>, x: real)
    ensures Recorded(Window(history), x) == Window(history + [x])
  {
  }

  /** A window is the last samples, 1024 at most and fewer only if there are no more. */
  lemma WindowIsLast(history: seq<real>)
    ensures |Window(history)| == (if |history| < 1024 then |history| else 1024)
    ensures Window(history) == history[|history| - |Window(history)|..]
  {
  }

  /** All samples pushed one after the other. */
  function RecordAll(values: seq<real>, xs: seq<real>): seq<real>
    decreases |xs|
  {
    if xs == [] then values else RecordAll(Recorded(values, xs[0]), xs[1..])
  }

  /** However many samples were recorded, a series holds exactly the last min(n, 1024), in order. */
  lemma {:induction false} SeriesHoldsLast(history: seq<real>, xs: seq<real>)
    ensures RecordAll(Window(history), xs) == Window(history + xs)
    decreases |xs|
  {
    if xs == [] {
      assert history + xs == history;
    } else {
      RecordedIsWindow(history, xs[0]);
      SeriesHoldsLast(history + [xs[0]], xs[1..]);
      assert history + xs == history + [xs[0]] + xs[1..];
    }
  }

  // ---------- Percentiles ----------

  function RealLe(): (real, real) -> bool { (x, y) => x <= y }

  function Sorted(values: seq<real>): seq<real> { Sort(RealLe(), values) }

  /** The rank of a percentile among n samples. */
  function Rank(n: nat, p: real): int
    requires n > 0
  {
    ((n - 1) as real * p).Floor
  }

  function Percentile(sorted: seq<real>, p: real): real {
    if sorted == [] then 0.0
    else if p <= 0.0 then sorted[0]
    else if p >= 1.0 then sorted[|sorted| - 1]
    else
      sorted[Rank(|sorted|, p)]
  }

  lemma RanksAscend(n: nat, p: real, q: real)
    requires n > 0 && 0.0 < p <= q < 1.0
    ensures Rank(n, p) <= Rank(n, q)
  {
    var x := (n - 1) as real;
    assert x * p <= x * q;
  }

  function SampleSum(values: seq<real>): real {
    if values == [] then 0.0 else values[0] + SampleSum(values[1..])
  }

  lemma {:induction false} SumMiddle(l: seq<real>, x: real, r: seq<real>)
    ensures SampleSum(l + [x] + r) == x + SampleSum(l + r)
  {
    if l == [] {
      assert l + [x] + r == [x] + r && l + r == r;
    } else {
      var rest := l[1..];
      assert l + [x] + r == [l[0]] + (rest + [x] + r) && l + r == [l[0]] + (rest + r);
      SumMiddle(rest, x, r);
    }
  }

  lemma FirstApart(a: seq<real>)
    requires a != []
    ensures a[0] in multiset(a) && multiset(a[1..]) == multiset(a) - multiset{a[0]}
  {
    assert a == [a[0]] + a[1..];
  }

  lemma {:induction false} SumPermutes(a: seq<real>, b: seq<real>)
    requires multiset(a) == multiset(b)
    ensures SampleSum(a) == SampleSum(b)
  {
    if a == [] {
      assert |multiset(b)| == 0;
    } else {
      FirstApart(a);
      assert a[0] in multiset(b);
      var l, r := TakeOut(b, a[0]);
      assert multiset(l + r) == multiset(a) - multiset{a[0]};
      SumPermutes(a[1..], l + r);
      SumMiddle(l, a[0], r);
    }
  }

  datatype Summary = Summary(count: nat, sum: real, p50: real, p90: real, p99: real)

  /** v stands at the rank of so many percent, rounded down. */
  ghost predicate AtRank(sorted: seq<real>, percent: nat, v: real) {
    sorted != [] && percent < 100 && v == sorted[(|sorted| - 1) * percent / 100]
  }

  /** The ranks asked for, in whole numbers. */
  lemma RanksAreWhole(n: nat)
    requires n > 0
    ensures Rank(n, 0.5) == (n - 1) * 50 / 100
    ensures Rank(n, 0.9) == (n - 1) * 90 / 100
    ensures Rank(n, 0.99) == (n - 1) * 99 / 100
  {
    FloorOf(n - 1, 50, 0.5);
    FloorOf(n - 1, 90, 0.9);
    FloorOf(n - 1, 99, 0.99);
  }

  lemma FloorOf(m: nat, percent: nat, p: real)
    requires percent <= 100 && p == percent as real / 100.0
    ensures (m as real * p).Floor == m * percent / 100
  {
    var (q, r) := (m * percent / 100, m * percent % 100);
    assert m * percent == 100 * q + r;
    assert m as real * p == (m * percent) as real / 100.0;
    assert m as real * p == q as real + r as real / 100.0;
  }

  /** What a window's summary means. */
  ghost predicate Summarizes(s: Summary, window: seq<real>) {
    && s.count == |window| && s.sum == SampleSum(window)
    && (window != [] ==>
          && AtRank(Sorted(window), 50, s.p50) && AtRank(Sorted(window), 90, s.p90)
          && AtRank(Sorted(window), 99, s.p99)
          && s.p50 in window && s.p90 in window && s.p99 in window
          && s.p50 <= s.p90 <= s.p99)
  }

  lemma SortedSamples(values: seq<real>)
    ensures multiset(Sorted(values)) == multiset(values) && |Sorted(values)| == |values|
    ensures forall i, j :: 0 <= i < j < |values| ==> Sorted(values)[i] <= Sorted(values)[j]
  {
    assert TotalOrder(RealLe());
    SortSorts(RealLe(), values);
    forall i, j | 0 <= i < j < |values| ensures Sorted(values)[i] <= Sorted(values)[j] {
      assert RealLe()(Sorted(values)[i], Sorted(values)[j]);
    }
  }

  /** Sorts a copy, adds it up and reads the percentiles off it. */
  method Summarize(window: seq<real>) returns (s: Summary)
    ensures Summarizes(s, window)
  {
    var sorted := Sorted(window);
    SortedSamples(window);
    var sum := 0.0;
    for i := 0 to |sorted|
      invariant sum == SampleSum(sorted[..i])
    {
      assert sorted[..i + 1] == sorted[..i] + [sorted[i]] + [];
      assert sorted[..i] + [] == sorted[..i];
      SumMiddle(sorted[..i], sorted[i], []);
      sum := sum + sorted[i];
    }
    assert sorted[..|sorted|] == sorted;
    SumPermutes(sorted, window);
    if |window| > 0 {
      PercentilesOf(sorted, window);
    }
    s := Summary(|sorted|, sum, Percentile(sorted, 0.5), Percentile(sorted, 0.9), Percentile(sorted, 0.99));
  }

  lemma PercentilesAtRanks(sorted: seq<real>)
    requires sorted != []
    ensures AtRank(sorted, 50, Percentile(sorted, 0.5)) && AtRank(sorted, 90, Percentile(sorted, 0.9))
    ensures AtRank(sorted, 99, Percentile(sorted, 0.99))
  {
    RanksAreWhole(|sorted|);
  }

  lemma PercentilesOf(sorted: seq<real>, window: seq<real>)
    requires sorted == Sorted(window) && window != []
    ensures |sorted| == |window|
    ensures AtRank(sorted, 50, Percentile(sorted, 0.5)) && AtRank(sorted, 90, Percentile(sorted, 0.9))
    ensures AtRank(sorted, 99, Percentile(sorted, 0.99))
    ensures Percentile(sorted, 0.5) in window && Percentile(sorted, 0.9) in window && Percentile(sorted, 0.99) in window
    ensures Percentile(sorted, 0.5) <= Percentile(sorted, 0.9) <= Percentile(sorted, 0.99)
  {
    SortedSamples(window);
    var n := |sorted|;
    PercentilesAtRanks(sorted);
    RanksAscend(n, 0.5, 0.9);
    RanksAscend(n, 0.9, 0.99);
    RanksAreWithin(sorted, window);
  }

  lemma RanksAreWithin(sorted: seq<real>, window: seq<real>)
    requires multiset(sorted) == multiset(window)
    ensures forall percent, v :: AtRank(sorted, percent, v) ==> v in window
  {
    forall percent, v | AtRank(sorted, percent, v) ensures v in window {
      var k := (|sorted| - 1) * percent / 100;
      assert sorted[k] in multiset(window);
    }
  }

  // ---------- The store ----------

  datatype CounterLine = CounterLine(key: string, value: int)
  datatype HistogramLine = HistogramLine(name: string, labels: string, summary: Summary)

  class Store {
    const quote: Quote
    var counters: map<string, int>
    var histograms: map<string, seq<real>>
    ghost var history: map<string, seq<real>>  // every sample ever observed, oldest first

    ghost predicate Valid()
      reads this
    {
      && histograms.Keys == history.Keys
      && forall k :: k in histograms ==> histograms[k] == Window(history[k])
    }

    constructor (quote: Quote)
      ensures Valid() && counters == map[] && history == map[] && this.quote == quote
    {
      this.quote := quote;
      counters, histograms, history := map[], map[], map[];
    }

    method Add(name: string, n: int, labels: seq<string>)
      requires Valid()
      modifies this
      ensures Valid() && history == old(history)
      ensures var key := SeriesKey(quote, name, labels);
              counters == old(counters)[key := (if key in old(counters) then old(counters)[key] else 0) + n]
    {
      var key := BuildSeriesKey(quote, name, labels);
      counters := counters[key := (if key in counters then counters[key] else 0) + n];
    }

    method Observe(name: string, ms: real, labels: seq<string>)
      requires Valid()
      modifies this
      ensures Valid() && counters == old(counters)
      ensures var key := SeriesKey(quote, name, labels);
              history == old(history)[key := (if key in old(history) then old(history)[key] else []) + [ms]]
    {
      var key := BuildSeriesKey(quote, name, labels);
      var values := if key in histograms then histograms[key] else [];
      ghost var before := if key in history then history[key] else [];
      if |values| >= MAX_SAMPLES {
        values := values[1..][..MAX_SAMPLES - 1];
      }
      values := values + [ms];
      RecordedIsWindow(before, ms);
      histograms := histograms[key := values];
      history := history[key := before + [ms]];
    }

    method RenderCounters() returns (keys: seq<string>, cs: seq<CounterLine>)
      requires Valid()
      ensures multiset(keys) == multiset(counters.Keys) && SortedBy(LexLe, keys) && |cs| == |keys|
      ensures forall i :: 0 <= i < |keys| ==> keys[i] in counters && cs[i] == CounterLine(keys[i], counters[keys[i]])
    {
      keys := SortedListOf(counters.Keys);
      cs := [];
      for i := 0 to |keys|
        invariant |cs| == i
        invariant forall k :: 0 <= k < i ==> keys[k] in counters && cs[k] == CounterLine(keys[k], counters[keys[k]])
      {
        cs := cs + [CounterLine(keys[i], counters[keys[i]])];
      }
    }

    method RenderHistograms() returns (keys: seq<string>, hs: seq<HistogramLine>)
      requires Valid()
      ensures multiset(keys) == multiset(history.Keys) && SortedBy(LexLe, keys) && |hs| == |keys|
      ensures forall i :: 0 <= i < |keys| ==> keys[i] in history && Describes(hs[i], keys[i], history[keys[i]])
    {
      keys := SortedListOf(histograms.Keys);
      hs := [];
      for i := 0 to |keys|
        invariant |hs| == i
        invariant forall k :: 0 <= k < i ==> keys[k] in history && Describes(hs[k], keys[k], history[keys[k]])
      {
        var (name, labels) := SplitSeries(keys[i]);
        var summary := Summarize(histograms[keys[i]]);
        hs := hs + [HistogramLine(name, labels, summary)];
      }
    }

    /** Lists every series in key order; each histogram line summarizes the last 1024 samples ever
        observed for its series. Rendering changes nothing, so it can come between any two samples. */
    method Render() returns (keys: seq<string>, cs: seq<CounterLine>, hkeys: seq<string>, hs: seq<HistogramLine>)
      requires Valid()
      ensures multiset(keys) == multiset(counters.Keys) && SortedBy(LexLe, keys) && |cs| == |keys|
      ensures forall i :: 0 <= i < |keys| ==> keys[i] in counters && cs[i] == CounterLine(keys[i], counters[keys[i]])
      ensures multiset(hkeys) == multiset(history.Keys) && SortedBy(LexLe, hkeys) && |hs| == |hkeys|
      ensures forall i :: 0 <= i < |hkeys| ==> hkeys[i] in history && Describes(hs[i], hkeys[i], history[hkeys[i]])
    {
      keys, cs := RenderCounters();
      hkeys, hs := RenderHistograms();
    }
  }

  /** A rendered line says what the last 1024 samples of its series amount to. */
  ghost predicate Describes(line: HistogramLine, key: string, history: seq<real>) {
    (line.name, line.labels) == SplitSeries(key) && Summarizes(line.summary, Window(history))
  }

  method SortedListOf(s: set<string>) returns (l: seq<string>)
    ensures multiset(l) == multiset(s) && SortedBy(LexLe, l)
    ensures forall i :: 0 <= i < |l| ==> l[i] in s
  {
    var some := ListOf(s);
    LexIsTotalOrder();
    SortSorts(LexLe, some);
    l := Sort(LexLe, some);
    forall i | 0 <= i < |l| ensures l[i] in s {
      assert l[i] in multiset(l);
    }
  }

  /** The elements of a set in some order. */
  method ListOf(s: set<string>) returns (l: seq<string>)
    ensures multiset(l) == multiset(s)
  {
    l := [];
    var left := s;
    while left != {}
      invariant left <= s && multiset(l) + multiset(left) == multiset(s)
      decreases left
    {
      var x :| x in left;
      l := l + [x];
      left := left - {x};
    }
  }
}
