/** Merging the metric families of several processes into one summary: what is conserved, for
    which labels, and in which order. Values are reals; rounding is not modelled.
 */
module Metrics {

  type Labels = map<string, string>

  datatype LabeledValue = LabeledValue(labels: Labels, value: real)

  datatype LatencySummary = LatencySummary(labels: Labels, count: nat, avgMs: real)

  // One series of a family. A counter series has no samples and the other way round.
  datatype Metric = Metric(labels: Labels, counter: real, sampleCount: nat, sampleSum: real)

  // ---- comparing label sets --------------------------------------------------------------------

  // Reading an absent key yields the empty string.
  function ValueAt(labels: Labels, key: string): string {
    if key in labels then labels[key] else ""
  }

  predicate Alike(a: Labels, b: Labels) {
    |a| == |b| && forall key :: key in a ==> ValueAt(b, key) == a[key]
  }

  predicate Clean(labels: Labels) {
    forall key :: key in labels ==> labels[key] != ""
  }

  method SameLabels(a: Labels, b: Labels) returns (same: bool)
    ensures same <==> Alike(a, b)
    ensures same <==> |a| == |b| && forall key :: key in a ==> a[key] == if key in b then b[key] else ""
    ensures Clean(a) ==> (same <==> a == b)
  {
    if Clean(a) { CleanIsExact(a, b); }
    if |a| != |b| { return false; }
    var keys := a.Keys;
    while keys != {}
      invariant keys <= a.Keys && forall key :: key in a && key !in keys ==> ValueAt(b, key) == a[key]
      decreases |keys|
    {
      var key :| key in keys;
      keys := keys - {key};
      if ValueAt(b, key) != a[key] { return false; }
    }
    same := true;
  }

  lemma SubsetOfSameSize<T>(a: set<T>, b: set<T>)
    requires a <= b && |a| == |b|
    ensures a == b
  {
    assert |b - a| == |b| - |a|;
  }

  lemma CleanIsExact(a: Labels, b: Labels)
    requires Clean(a)
    ensures Alike(a, b) <==> a == b
  {
    if Alike(a, b) {
      assert forall key :: key in a.Keys ==> key in b.Keys;
      assert |a.Keys| == |a| && |b.Keys| == |b|;
      SubsetOfSameSize(a.Keys, b.Keys);
      assert forall key :: key in a ==> a[key] == b[key];
    }
  }

  lemma {:induction false} FreshKey(keys: set<string>, n: nat) returns (key: string)
    requires forall k :: k in keys ==> |k| <= n
    ensures key !in keys
  {
    key := seq(n + 1, _ => 'k');
  }

  lemma {:induction false} LengthBound(keys: set<string>) returns (n: nat)
    ensures forall k :: k in keys ==> |k| <= n
  {
    if keys == {} {
      n := 0;
    } else {
      var k :| k in keys;
      n := LengthBound(keys - {k});
      if |k| > n { n := |k|; }
    }
  }

  /** The comparison is equality of label sets exactly for those without an empty value. */
  lemma AlikeIsEqualityIff(a: Labels)
    ensures (forall b: Labels :: Alike(a, b) <==> a == b) <==> Clean(a)
  {
    if Clean(a) {
      forall b: Labels ensures Alike(a, b) <==> a == b { CleanIsExact(a, b); }
    } else {
      var key :| key in a && a[key] == "";
      var n := LengthBound(a.Keys);
      var other := FreshKey(a.Keys, n);
      var b := (a - {key})[other := "x"];
      assert b.Keys == a.Keys - {key} + {other};
      assert |b| == |b.Keys| == |a.Keys| == |a|;
      assert Alike(a, b) && a != b;
    }
  }

  // ---- counters -----------------------------------------------------------------------------------

  // The first entry that an update goes to.
  function Position(entries: seq<Labels>, labels: Labels): (i: nat)
    ensures i <= |entries| && (i < |entries| ==> Alike(entries[i], labels))
    ensures forall j :: 0 <= j < i ==> !Alike(entries[j], labels)
  {
    if entries == [] || Alike(entries[0], labels) then 0 else 1 + Position(entries[1..], labels)
  }

  method Locate(entries: seq<Labels>, labels: Labels) returns (i: nat)
    ensures i == Position(entries, labels)
  {
    i := 0;
    while i < |entries|
      invariant i <= |entries| && forall j :: 0 <= j < i ==> !Alike(entries[j], labels)
    {
      var same := SameLabels(entries[i], labels);
      if same { break; }
      i := i + 1;
    }
    FirstIsUnique(entries, labels, i);
  }

  lemma FirstIsUnique(entries: seq<Labels>, labels: Labels, i: nat)
    requires i <= |entries| && (i < |entries| ==> Alike(entries[i], labels))
    requires forall j :: 0 <= j < i ==> !Alike(entries[j], labels)
    ensures i == Position(entries, labels)
  {
  }

  function CounterLabels(entries: seq<LabeledValue>): seq<Labels> {
    seq(|entries|, i requires 0 <= i < |entries| => entries[i].labels)
  }

  function AddCounter(entries: seq<LabeledValue>, m: Metric): seq<LabeledValue> {
    var i := Position(CounterLabels(entries), m.labels);
    if i < |entries| then entries[i := entries[i].(value := entries[i].value + m.counter)]
    else entries + [LabeledValue(m.labels, m.counter)]
  }

  function AddCounters(entries: seq<LabeledValue>, ms: seq<Metric>): seq<LabeledValue> {
    if ms == [] then entries else AddCounter(AddCounters(entries, ms[..|ms| - 1]), ms[|ms| - 1])
  }

  method MergeCounters(existing: seq<LabeledValue>, ms: seq<Metric>) returns (merged: seq<LabeledValue>)
    ensures merged == AddCounters(existing, ms)
  {
    merged := existing;
    for k := 0 to |ms|
      invariant merged == AddCounters(existing, ms[..k])
    {
      assert ms[..k + 1][..k] == ms[..k];
      var m := ms[k];
      var i := Locate(CounterLabels(merged), m.labels);
      if i < |merged| {
        merged := merged[i := merged[i].(value := merged[i].value + m.counter)];
      } else {
        merged := merged + [LabeledValue(m.labels, m.counter)];
      }
    }
    assert ms[..|ms|] == ms;
  }

  // ---- what the counters mean --------------------------------------------------------------------

  ghost function Total(entries: seq<LabeledValue>, labels: Labels): real {
    if entries == [] then 0.0
    else
      var last := entries[|entries| - 1];
      Total(entries[..|entries| - 1], labels) + if last.labels == labels then last.value else 0.0
  }

  ghost function Reported(ms: seq<Metric>, labels: Labels): real {
    if ms == [] then 0.0
    else
      var last := ms[|ms| - 1];
      Reported(ms[..|ms| - 1], labels) + if last.labels == labels then last.counter else 0.0
  }

  // The totals of some series are sums, one term for each series with the label set.
  lemma SumsAdd(ms: seq<Metric>, m: Metric, labels: Labels)
    ensures Reported([], labels) == 0.0 && SampleCount([], labels) == 0 && SampleSum([], labels) == 0.0
    ensures Reported(ms + [m], labels) == Reported(ms, labels) + if m.labels == labels then m.counter else 0.0
    ensures SampleCount(ms + [m], labels) == SampleCount(ms, labels) + if m.labels == labels then m.sampleCount else 0
    ensures SampleSum(ms + [m], labels) == SampleSum(ms, labels) + if m.labels == labels then m.sampleSum else 0.0
  {
    assert (ms + [m])[..|ms|] == ms;
  }

  ghost predicate CleanMetrics(ms: seq<Metric>) { forall m :: m in ms ==> Clean(m.labels) }

  ghost predicate HasSeries(ms: seq<Metric>, labels: Labels) { exists m :: m in ms && m.labels == labels }

  // One entry for each label set, none of them with an empty value.
  ghost predicate Tidy(entries: seq<Labels>) {
    && (forall i :: 0 <= i < |entries| ==> Clean(entries[i]))
    && (forall i, j :: 0 <= i < j < |entries| ==> entries[i] != entries[j])
  }

  lemma {:induction false} TotalUpdate(entries: seq<LabeledValue>, i: nat, value: real, labels: Labels)
    requires i < |entries|
    ensures Total(entries[i := entries[i].(value := entries[i].value + value)], labels)
              == Total(entries, labels) + if entries[i].labels == labels then value else 0.0
  {
    var updated := entries[i := entries[i].(value := entries[i].value + value)];
    var n := |entries| - 1;
    if i < n {
      assert updated[..n] == entries[..n][i := entries[..n][i].(value := entries[..n][i].value + value)];
      TotalUpdate(entries[..n], i, value, labels);
    } else {
      assert updated[..n] == entries[..n];
    }
  }

  lemma TotalAppend(entries: seq<LabeledValue>, e: LabeledValue, labels: Labels)
    ensures Total(entries + [e], labels) == Total(entries, labels) + if e.labels == labels then e.value else 0.0
  {
    assert (entries + [e])[..|entries|] == entries;
  }

  lemma AddCounterKeepsTidy(entries: seq<LabeledValue>, m: Metric)
    requires Tidy(CounterLabels(entries)) && Clean(m.labels)
    ensures Tidy(CounterLabels(AddCounter(entries, m)))
    ensures forall l :: l in CounterLabels(AddCounter(entries, m)) <==> l in CounterLabels(entries) || l == m.labels
  {
    var all, after := CounterLabels(entries), CounterLabels(AddCounter(entries, m));
    forall j | 0 <= j < |all| ensures Alike(all[j], m.labels) <==> all[j] == m.labels {
      CleanIsExact(all[j], m.labels);
    }
    if Position(all, m.labels) < |entries| {
      assert after == all;
    } else {
      assert after == all + [m.labels];
    }
  }

  lemma AddCounterConserves(entries: seq<LabeledValue>, m: Metric, labels: Labels)
    requires (forall e :: e in CounterLabels(entries) ==> Clean(e)) && Clean(m.labels)
    ensures Total(AddCounter(entries, m), labels)
              == Total(entries, labels) + if m.labels == labels then m.counter else 0.0
  {
    var i := Position(CounterLabels(entries), m.labels);
    if i < |entries| {
      assert CounterLabels(entries)[i] == entries[i].labels;
      CleanIsExact(entries[i].labels, m.labels);
      assert entries[i].labels == m.labels;
      TotalUpdate(entries, i, m.counter, labels);
      assert AddCounter(entries, m) == entries[i := entries[i].(value := entries[i].value + m.counter)];
    } else {
      TotalAppend(entries, LabeledValue(m.labels, m.counter), labels);
    }
  }

  /** Merging conserves each label set's total, keeps one entry per label set, and invents and
      loses no label set, provided no label value is empty. */
  lemma {:induction false} CountersConserved(entries: seq<LabeledValue>, ms: seq<Metric>, labels: Labels)
    requires Tidy(CounterLabels(entries)) && CleanMetrics(ms)
    ensures Tidy(CounterLabels(AddCounters(entries, ms)))
    ensures Total(AddCounters(entries, ms), labels) == Total(entries, labels) + Reported(ms, labels)
    ensures labels in CounterLabels(AddCounters(entries, ms)) <==>
              labels in CounterLabels(entries) || HasSeries(ms, labels)
  {
    if ms != [] {
      var init, last := ms[..|ms| - 1], ms[|ms| - 1];
      CountersConserved(entries, init, labels);
      AddCounterConserves(AddCounters(entries, init), last, labels);
      AddCounterKeepsTidy(AddCounters(entries, init), last);
      assert forall m :: m in ms <==> m in init || m == last;
    }
  }

  // ---- order does not matter ----------------------------------------------------------------------

  lemma {:induction false} CountInDistinct<T>(s: seq<T>, x: T)
    requires forall i, j :: 0 <= i < j < |s| ==> s[i] != s[j]
    ensures multiset(s)[x] == if x in s then 1 else 0
  {
    if s != [] {
      var init, last := s[..|s| - 1], s[|s| - 1];
      CountInDistinct(init, x);
      assert s == init + [last];
    }
  }

  lemma SameElements<T>(a: seq<T>, b: seq<T>)
    requires forall i, j :: 0 <= i < j < |a| ==> a[i] != a[j]
    requires forall i, j :: 0 <= i < j < |b| ==> b[i] != b[j]
    requires forall x :: x in a <==> x in b
    ensures multiset(a) == multiset(b)
  {
    forall x ensures multiset(a)[x] == multiset(b)[x] {
      CountInDistinct(a, x);
      CountInDistinct(b, x);
    }
  }

  lemma {:induction false} TotalAt(entries: seq<LabeledValue>, labels: Labels)
    requires Tidy(CounterLabels(entries))
    ensures labels !in CounterLabels(entries) ==> Total(entries, labels) == 0.0
    ensures forall i :: 0 <= i < |entries| && entries[i].labels == labels ==> Total(entries, labels) == entries[i].value
  {
    if entries != [] {
      var init := entries[..|entries| - 1];
      var all := CounterLabels(entries);
      assert CounterLabels(init) == all[..|init|];
      assert all[|init|] == entries[|init|].labels;
      TotalAt(init, labels);
      forall i | 0 <= i < |init| && entries[i].labels == labels ensures entries[|init|].labels != labels {
        assert all[i] != all[|init|] && init[i] == entries[i];
      }
    }
  }

  // Two tidy summaries with the same label sets and totals hold the same entries.
  lemma CountersDetermined(a: seq<LabeledValue>, b: seq<LabeledValue>)
    requires Tidy(CounterLabels(a)) && Tidy(CounterLabels(b))
    requires forall l :: l in CounterLabels(a) <==> l in CounterLabels(b)
    requires forall l :: l in CounterLabels(a) ==> Total(a, l) == Total(b, l)
    ensures multiset(a) == multiset(b)
  {
    CountersIncluded(a, b);
    CountersIncluded(b, a);
    assert forall i :: 0 <= i < |a| ==> CounterLabels(a)[i] == a[i].labels;
    assert forall i :: 0 <= i < |b| ==> CounterLabels(b)[i] == b[i].labels;
    SameElements(a, b);
  }

  lemma CountersIncluded(a: seq<LabeledValue>, b: seq<LabeledValue>)
    requires Tidy(CounterLabels(a)) && Tidy(CounterLabels(b))
    requires forall l :: l in CounterLabels(a) ==> l in CounterLabels(b) && Total(a, l) == Total(b, l)
    ensures forall x :: x in a ==> x in b
  {
    forall i | 0 <= i < |a| ensures a[i] in b {
      assert CounterLabels(a)[i] in CounterLabels(a);
      var j :| 0 <= j < |b| && CounterLabels(b)[j] == a[i].labels;
      TotalAt(a, a[i].labels);
      TotalAt(b, a[i].labels);
      assert b[j] == a[i];
    }
  }

  // What a summary that has taken up some series holds.
  ghost predicate HoldsCounters(after: seq<LabeledValue>, before: seq<LabeledValue>, ms: seq<Metric>) {
    && Tidy(CounterLabels(after))
    && (forall l :: Total(after, l) == Total(before, l) + Reported(ms, l))
    && (forall l :: l in CounterLabels(after) <==> l in CounterLabels(before) || HasSeries(ms, l))
  }

  lemma CountersHeld(entries: seq<LabeledValue>, ms: seq<Metric>)
    requires Tidy(CounterLabels(entries)) && CleanMetrics(ms)
    ensures HoldsCounters(AddCounters(entries, ms), entries, ms)
  {
    var after := AddCounters(entries, ms);
    CountersConserved(entries, ms, map[]);
    forall l ensures Total(after, l) == Total(entries, l) + Reported(ms, l) { CountersConserved(entries, ms, l); }
    forall l ensures l in CounterLabels(after) <==> l in CounterLabels(entries) || HasSeries(ms, l) {
      CountersConserved(entries, ms, l);
    }
  }

  lemma HoldersAgree(a: seq<LabeledValue>, b: seq<LabeledValue>, entries: seq<LabeledValue>, ms: seq<Metric>,
        ns: seq<Metric>)
    requires HoldsCounters(a, entries, ms) && HoldsCounters(b, entries, ns) && multiset(ms) == multiset(ns)
    ensures multiset(a) == multiset(b)
  {
    forall l ensures Total(a, l) == Total(b, l) { PermutedSums(ms, ns, l); }
    forall m: Metric ensures m in ms <==> m in ns { assert m in multiset(ms) <==> m in multiset(ns); }
    CountersDetermined(a, b);
  }

  /** The series of any number of sources give the same summary in whatever order they come. */
  lemma CountersInAnyOrder(entries: seq<LabeledValue>, ms: seq<Metric>, ns: seq<Metric>)
    requires Tidy(CounterLabels(entries)) && CleanMetrics(ms) && multiset(ms) == multiset(ns)
    ensures multiset(AddCounters(entries, ms)) == multiset(AddCounters(entries, ns))
  {
    forall m | m in ns ensures m in ms { assert m in multiset(ms); }
    CountersHeld(entries, ms);
    CountersHeld(entries, ns);
    HoldersAgree(AddCounters(entries, ms), AddCounters(entries, ns), entries, ms, ns);
  }

  // ---- sums do not depend on the order ------------------------------------------------------------------

  lemma {:induction false} SumsWithout(ms: seq<Metric>, i: nat, labels: Labels)
    requires i < |ms|
    ensures var rest, m := ms[..i] + ms[i + 1..], ms[i];
            && Reported(ms, labels) == Reported(rest, labels) + (if m.labels == labels then m.counter else 0.0)
            && SampleCount(ms, labels) == SampleCount(rest, labels) + (if m.labels == labels then m.sampleCount else 0)
            && SampleSum(ms, labels) == SampleSum(rest, labels) + (if m.labels == labels then m.sampleSum else 0.0)
  {
    var n, rest := |ms| - 1, ms[..i] + ms[i + 1..];
    if i == n {
      assert rest == ms[..n];
    } else {
      assert rest[..|rest| - 1] == ms[..n][..i] + ms[..n][i + 1..] && rest[|rest| - 1] == ms[n];
      SumsWithout(ms[..n], i, labels);
    }
  }

  lemma RemoveBoth<T>(init: seq<T>, last: T, other: seq<T>, i: nat)
    requires i < |other| && other[i] == last && multiset(init + [last]) == multiset(other)
    ensures multiset(init) == multiset(other[..i] + other[i + 1..])
  {
    var rest := other[..i] + other[i + 1..];
    assert other == other[..i] + [last] + other[i + 1..];
    assert multiset(other) == multiset(rest) + multiset{last};
    assert multiset(init + [last]) == multiset(init) + multiset{last};
    assert multiset(init) == multiset(init + [last]) - multiset{last};
  }

  lemma {:induction false} PermutedSums(ms: seq<Metric>, ns: seq<Metric>, labels: Labels)
    requires multiset(ms) == multiset(ns)
    ensures Reported(ms, labels) == Reported(ns, labels)
    ensures SampleCount(ms, labels) == SampleCount(ns, labels) && SampleSum(ms, labels) == SampleSum(ns, labels)
  {
    if ms == [] {
      assert |multiset(ns)| == |ns|;
    } else {
      var init, last := ms[..|ms| - 1], ms[|ms| - 1];
      assert ms == init + [last] && last in multiset(ns);
      var i :| 0 <= i < |ns| && ns[i] == last;
      RemoveBoth(init, last, ns, i);
      SumsWithout(ns, i, labels);
      PermutedSums(init, ns[..i] + ns[i + 1..], labels);
    }
  }

  // ---- histograms -------------------------------------------------------------------------------------

  function LatencyLabels(entries: seq<LatencySummary>): seq<Labels> {
    seq(|entries|, i requires 0 <= i < |entries| => entries[i].labels)
  }

  function Pool(e: LatencySummary, count: nat, sum: real): LatencySummary {
    var total := e.avgMs / 1000.0 * e.count as real + sum;
    var n := e.count + count;
    LatencySummary(e.labels, n, if n > 0 then total / n as real * 1000.0 else e.avgMs)
  }

  function AddSamples(entries: seq<LatencySummary>, m: Metric): seq<LatencySummary> {
    var i := Position(LatencyLabels(entries), m.labels);
    if i < |entries| then entries[i := Pool(entries[i], m.sampleCount, m.sampleSum)]
    else if m.sampleCount > 0 then
      entries + [LatencySummary(m.labels, m.sampleCount, m.sampleSum / m.sampleCount as real * 1000.0)]
    else entries
  }

  function AddHistograms(entries: seq<LatencySummary>, ms: seq<Metric>): seq<LatencySummary> {
    if ms == [] then entries else AddSamples(AddHistograms(entries, ms[..|ms| - 1]), ms[|ms| - 1])
  }

  method PoolEntry(e: LatencySummary, count: nat, sum: real) returns (pooled: LatencySummary)
    ensures pooled == Pool(e, count, sum)
  {
    var total := e.avgMs / 1000.0 * e.count as real + sum;
    var n := e.count + count;
    pooled := e.(count := n);
    if n > 0 { pooled := pooled.(avgMs := total / n as real * 1000.0); }
  }

  method MergeHistograms(existing: seq<LatencySummary>, ms: seq<Metric>) returns (merged: seq<LatencySummary>)
    ensures merged == AddHistograms(existing, ms)
  {
    merged := existing;
    for k := 0 to |ms|
      invariant merged == AddHistograms(existing, ms[..k])
    {
      assert ms[..k + 1][..k] == ms[..k];
      var labels, count, sum := ms[k].labels, ms[k].sampleCount, ms[k].sampleSum;
      var i := Locate(LatencyLabels(merged), labels);
      if i < |merged| {
        var pooled := PoolEntry(merged[i], count, sum);
        merged := merged[i := pooled];
      } else if count > 0 {
        merged := merged + [LatencySummary(labels, count, sum / count as real * 1000.0)];
      }
    }
    assert ms[..|ms|] == ms;
  }

  // The seconds an entry stands for.
  ghost function Weight(e: LatencySummary): real { e.avgMs / 1000.0 * e.count as real }

  ghost function CountOf(entries: seq<LatencySummary>, labels: Labels): nat {
    if entries == [] then 0
    else
      var last := entries[|entries| - 1];
      CountOf(entries[..|entries| - 1], labels) + if last.labels == labels then last.count else 0
  }

  ghost function WeightOf(entries: seq<LatencySummary>, labels: Labels): real {
    if entries == [] then 0.0
    else
      var last := entries[|entries| - 1];
      WeightOf(entries[..|entries| - 1], labels) + if last.labels == labels then Weight(last) else 0.0
  }

  ghost function SampleCount(ms: seq<Metric>, labels: Labels): nat {
    if ms == [] then 0
    else
      var last := ms[|ms| - 1];
      SampleCount(ms[..|ms| - 1], labels) + if last.labels == labels then last.sampleCount else 0
  }

  ghost function SampleSum(ms: seq<Metric>, labels: Labels): real {
    if ms == [] then 0.0
    else
      var last := ms[|ms| - 1];
      SampleSum(ms[..|ms| - 1], labels) + if last.labels == labels then last.sampleSum else 0.0
  }

  // A histogram without samples has no sum.
  ghost predicate Coherent(ms: seq<Metric>) {
    CleanMetrics(ms) && forall m :: m in ms && m.sampleCount == 0 ==> m.sampleSum == 0.0
  }

  ghost predicate HasSamples(ms: seq<Metric>, labels: Labels) {
    exists m :: m in ms && m.labels == labels && m.sampleCount > 0
  }

  ghost predicate TidyLatency(entries: seq<LatencySummary>) {
    Tidy(LatencyLabels(entries)) && forall i :: 0 <= i < |entries| ==> entries[i].count > 0
  }

  lemma DivideMultiply(total: real, n: real)
    requires n != 0.0
    ensures total / n * 1000.0 / 1000.0 * n == total
  {
    var x := total / n;
    assert x * n == total;
    assert x * 1000.0 / 1000.0 == x;
  }

  // Averages are pooled by weight.
  lemma PoolWeight(e: LatencySummary, count: nat, sum: real)
    requires e.count > 0
    ensures Weight(Pool(e, count, sum)) == Weight(e) + sum
  {
    DivideMultiply(Weight(e) + sum, (e.count + count) as real);
  }

  lemma {:induction false} PoolUpdate(entries: seq<LatencySummary>, i: nat, count: nat, sum: real, labels: Labels)
    requires i < |entries| && entries[i].count > 0
    ensures var updated := entries[i := Pool(entries[i], count, sum)];
            && CountOf(updated, labels) == CountOf(entries, labels) + (if entries[i].labels == labels then count else 0)
            && WeightOf(updated, labels) == WeightOf(entries, labels) + if entries[i].labels == labels then sum else 0.0
  {
    var updated := entries[i := Pool(entries[i], count, sum)];
    var n := |entries| - 1;
    PoolWeight(entries[i], count, sum);
    if i < n {
      assert updated[..n] == entries[..n][i := Pool(entries[..n][i], count, sum)];
      PoolUpdate(entries[..n], i, count, sum, labels);
    } else {
      assert updated[..n] == entries[..n];
    }
  }

  lemma AppendedConserves(entries: seq<LatencySummary>, e: LatencySummary, labels: Labels)
    ensures CountOf(entries + [e], labels) == CountOf(entries, labels) + if e.labels == labels then e.count else 0
    ensures WeightOf(entries + [e], labels) == WeightOf(entries, labels) + if e.labels == labels then Weight(e) else 0.0
  {
    assert (entries + [e])[..|entries|] == entries;
  }

  lemma FirstSamples(labels: Labels, count: nat, sum: real)
    requires count > 0
    ensures Weight(LatencySummary(labels, count, sum / count as real * 1000.0)) == sum
  {
    DivideMultiply(sum, count as real);
  }

  lemma AddSamplesConserves(entries: seq<LatencySummary>, m: Metric, labels: Labels)
    requires TidyLatency(entries) && (m.sampleCount == 0 ==> m.sampleSum == 0.0)
    ensures CountOf(AddSamples(entries, m), labels)
              == CountOf(entries, labels) + if LandsOn(entries, m) == labels then m.sampleCount else 0
    ensures WeightOf(AddSamples(entries, m), labels)
              == WeightOf(entries, labels) + if LandsOn(entries, m) == labels then m.sampleSum else 0.0
  {
    var i := Position(LatencyLabels(entries), m.labels);
    if i < |entries| {
      PoolUpdate(entries, i, m.sampleCount, m.sampleSum, labels);
    } else if m.sampleCount > 0 {
      FirstSamples(m.labels, m.sampleCount, m.sampleSum);
      AppendedConserves(
        entries, LatencySummary(m.labels, m.sampleCount, m.sampleSum / m.sampleCount as real * 1000.0), labels);
    }
  }

  // The label set that a sample is counted under.
  ghost function LandsOn(entries: seq<LatencySummary>, m: Metric): Labels {
    var i := Position(LatencyLabels(entries), m.labels);
    if i < |entries| then entries[i].labels else m.labels
  }

  lemma AddSamplesKeepsTidy(entries: seq<LatencySummary>, m: Metric)
    requires TidyLatency(entries) && Clean(m.labels)
    ensures TidyLatency(AddSamples(entries, m)) && LandsOn(entries, m) == m.labels
    ensures forall l :: l in LatencyLabels(AddSamples(entries, m)) <==>
              l in LatencyLabels(entries) || (l == m.labels && m.sampleCount > 0)
  {
    var all, after := LatencyLabels(entries), LatencyLabels(AddSamples(entries, m));
    forall j | 0 <= j < |all| ensures Alike(all[j], m.labels) <==> all[j] == m.labels {
      CleanIsExact(all[j], m.labels);
    }
    if Position(all, m.labels) < |entries| || m.sampleCount == 0 {
      assert after == all;
    } else {
      assert after == all + [m.labels];
    }
  }

  /** Merging histograms conserves, for each label set, the number of samples and their sum. */
  lemma {:induction false} HistogramsConserved(entries: seq<LatencySummary>, ms: seq<Metric>, labels: Labels)
    requires TidyLatency(entries) && Coherent(ms)
    ensures TidyLatency(AddHistograms(entries, ms))
    ensures CountOf(AddHistograms(entries, ms), labels) == CountOf(entries, labels) + SampleCount(ms, labels)
    ensures WeightOf(AddHistograms(entries, ms), labels) == WeightOf(entries, labels) + SampleSum(ms, labels)
    ensures labels in LatencyLabels(AddHistograms(entries, ms)) <==>
              labels in LatencyLabels(entries) || HasSamples(ms, labels)
  {
    if ms != [] {
      var init, last := ms[..|ms| - 1], ms[|ms| - 1];
      HistogramsConserved(entries, init, labels);
      AddSamplesConserves(AddHistograms(entries, init), last, labels);
      AddSamplesKeepsTidy(AddHistograms(entries, init), last);
      assert forall m :: m in ms <==> m in init || m == last;
    }
  }

  lemma {:induction false} LatencyAt(entries: seq<LatencySummary>, labels: Labels)
    requires TidyLatency(entries)
    ensures labels !in LatencyLabels(entries) ==> CountOf(entries, labels) == 0 && WeightOf(entries, labels) == 0.0
    ensures forall i :: 0 <= i < |entries| && entries[i].labels == labels ==>
              CountOf(entries, labels) == entries[i].count && WeightOf(entries, labels) == Weight(entries[i])
  {
    if entries != [] {
      var init := entries[..|entries| - 1];
      var all := LatencyLabels(entries);
      assert LatencyLabels(init) == all[..|init|];
      assert all[|init|] == entries[|init|].labels;
      LatencyAt(init, labels);
    }
  }

  lemma WeightGivesAverage(e: LatencySummary)
    requires e.count > 0
    ensures e.avgMs == Weight(e) / e.count as real * 1000.0
  {
    var n := e.count as real;
    var x := e.avgMs / 1000.0;
    assert x * n / n == x;
  }

  /** The reported average is the mean over all the samples of its label set. */
  lemma AverageIsTheMean(ms: seq<Metric>, i: nat)
    requires forall m :: m in ms ==> Clean(m.labels) && (m.sampleCount == 0 ==> m.sampleSum == 0.0)
    requires i < |AddHistograms([], ms)|
    ensures var e := AddHistograms([], ms)[i];
            e.count == SampleCount(ms, e.labels) > 0 && e.avgMs == SampleSum(ms, e.labels) / e.count as real * 1000.0
  {
    var merged := AddHistograms([], ms);
    HistogramsConserved([], ms, merged[i].labels);
    LatencyAt(merged, merged[i].labels);
    WeightGivesAverage(merged[i]);
  }

  lemma LatencyIncluded(a: seq<LatencySummary>, b: seq<LatencySummary>)
    requires TidyLatency(a) && TidyLatency(b)
    requires forall l :: l in LatencyLabels(a) ==>
               l in LatencyLabels(b) && CountOf(a, l) == CountOf(b, l) && WeightOf(a, l) == WeightOf(b, l)
    ensures forall x :: x in a ==> x in b
  {
    forall i | 0 <= i < |a| ensures a[i] in b {
      assert LatencyLabels(a)[i] in LatencyLabels(a);
      var j :| 0 <= j < |b| && LatencyLabels(b)[j] == a[i].labels;
      LatencyAt(a, a[i].labels);
      LatencyAt(b, a[i].labels);
      WeightGivesAverage(a[i]);
      WeightGivesAverage(b[j]);
      assert b[j] == a[i];
    }
  }

  ghost predicate HoldsSamples(after: seq<LatencySummary>, before: seq<LatencySummary>, ms: seq<Metric>) {
    && TidyLatency(after)
    && (forall l :: CountOf(after, l) == CountOf(before, l) + SampleCount(ms, l))
    && (forall l :: WeightOf(after, l) == WeightOf(before, l) + SampleSum(ms, l))
    && (forall l :: l in LatencyLabels(after) <==> l in LatencyLabels(before) || HasSamples(ms, l))
  }

  lemma SamplesHeld(entries: seq<LatencySummary>, ms: seq<Metric>)
    requires TidyLatency(entries) && Coherent(ms)
    ensures HoldsSamples(AddHistograms(entries, ms), entries, ms)
  {
    var after := AddHistograms(entries, ms);
    HistogramsConserved(entries, ms, map[]);
    forall l ensures CountOf(after, l) == CountOf(entries, l) + SampleCount(ms, l) {
      HistogramsConserved(entries, ms, l);
    }
    forall l ensures WeightOf(after, l) == WeightOf(entries, l) + SampleSum(ms, l) {
      HistogramsConserved(entries, ms, l);
    }
    forall l ensures l in LatencyLabels(after) <==> l in LatencyLabels(entries) || HasSamples(ms, l) {
      HistogramsConserved(entries, ms, l);
    }
  }

  // Two tidy summaries with the same label sets, counts and sums hold the same entries.
  lemma LatencyDetermined(a: seq<LatencySummary>, b: seq<LatencySummary>)
    requires TidyLatency(a) && TidyLatency(b)
    requires forall l :: l in LatencyLabels(a) <==> l in LatencyLabels(b)
    requires forall l :: l in LatencyLabels(a) ==> CountOf(a, l) == CountOf(b, l) && WeightOf(a, l) == WeightOf(b, l)
    ensures multiset(a) == multiset(b)
  {
    LatencyIncluded(a, b);
    LatencyIncluded(b, a);
    assert forall i :: 0 <= i < |a| ==> LatencyLabels(a)[i] == a[i].labels;
    assert forall i :: 0 <= i < |b| ==> LatencyLabels(b)[i] == b[i].labels;
    SameElements(a, b);
  }

  lemma SamplersAgree(a: seq<LatencySummary>, b: seq<LatencySummary>, entries: seq<LatencySummary>, ms: seq<Metric>,
        ns: seq<Metric>)
    requires HoldsSamples(a, entries, ms) && HoldsSamples(b, entries, ns) && multiset(ms) == multiset(ns)
    ensures multiset(a) == multiset(b)
  {
    forall l ensures CountOf(a, l) == CountOf(b, l) { PermutedSums(ms, ns, l); }
    forall l ensures WeightOf(a, l) == WeightOf(b, l) { PermutedSums(ms, ns, l); }
    forall m: Metric ensures m in ms <==> m in ns { assert m in multiset(ms) <==> m in multiset(ns); }
    LatencyDetermined(a, b);
  }

  /** The same for histograms. */
  lemma HistogramsInAnyOrder(entries: seq<LatencySummary>, ms: seq<Metric>, ns: seq<Metric>)
    requires TidyLatency(entries) && Coherent(ms) && multiset(ms) == multiset(ns)
    ensures multiset(AddHistograms(entries, ms)) == multiset(AddHistograms(entries, ns))
  {
    forall m | m in ns ensures m in ms { assert m in multiset(ms); }
    SamplesHeld(entries, ms);
    SamplesHeld(entries, ns);
    SamplersAgree(AddHistograms(entries, ms), AddHistograms(entries, ns), entries, ms, ns);
  }

  // ---- the summary ---------------------------------------------------------------------------------------

  datatype Family = Family(name: string, metrics: seq<Metric>)

  // The series of all the families with a name, in order.
  function SeriesOf(families: seq<Family>, name: string): seq<Metric> {
    if families == [] then []
    else
      SeriesOf(families[..|families| - 1], name)
      + if families[|families| - 1].name == name then families[|families| - 1].metrics else []
  }

  // Family after family, and only those with the name.
  lemma SeriesOneMore(families: seq<Family>, family: Family, name: string)
    ensures SeriesOf([], name) == []
    ensures SeriesOf(families + [family], name)
              == SeriesOf(families, name) + if family.name == name then family.metrics else []
  {
    assert (families + [family])[..|families|] == families;
  }

  lemma {:induction false} AddCountersConcat(entries: seq<LabeledValue>, a: seq<Metric>, b: seq<Metric>)
    ensures AddCounters(entries, a + b) == AddCounters(AddCounters(entries, a), b)
  {
    if b == [] {
      assert a + b == a;
    } else {
      assert (a + b)[..|a + b| - 1] == a + b[..|b| - 1];
      AddCountersConcat(entries, a, b[..|b| - 1]);
    }
  }

  lemma {:induction false} AddHistogramsConcat(entries: seq<LatencySummary>, a: seq<Metric>, b: seq<Metric>)
    ensures AddHistograms(entries, a + b) == AddHistograms(AddHistograms(entries, a), b)
  {
    if b == [] {
      assert a + b == a;
    } else {
      assert (a + b)[..|a + b| - 1] == a + b[..|b| - 1];
      AddHistogramsConcat(entries, a, b[..|b| - 1]);
    }
  }

  /** In particular two sources give the same summary whichever is merged first. */
  lemma SourcesInAnyOrder(counters: seq<LabeledValue>, latencies: seq<LatencySummary>, first: seq<Metric>,
        second: seq<Metric>)
    requires Tidy(CounterLabels(counters)) && TidyLatency(latencies) && CleanMetrics(first) && CleanMetrics(second)
    ensures multiset(AddCounters(AddCounters(counters, first), second))
              == multiset(AddCounters(AddCounters(counters, second), first))
    ensures Coherent(first) && Coherent(second) ==>
              multiset(AddHistograms(AddHistograms(latencies, first), second))
                == multiset(AddHistograms(AddHistograms(latencies, second), first))
  {
    assert multiset(first + second) == multiset(second + first);
    AddCountersConcat(counters, first, second);
    AddCountersConcat(counters, second, first);
    CountersInAnyOrder(counters, first + second, second + first);
    if Coherent(first) && Coherent(second) {
      AddHistogramsConcat(latencies, first, second);
      AddHistogramsConcat(latencies, second, first);
      HistogramsInAnyOrder(latencies, first + second, second + first);
    }
  }

  const CREATED := "notifications_created_total"
  const DELIVERED := "notifications_delivered_total"
  const ATTEMPTS := "delivery_attempts_total"
  const DELIVERY_LATENCY := "delivery_duration_seconds"
  const HTTP_LATENCY := "http_request_duration_seconds"

  class MetricsSummary {
    var created: seq<LabeledValue>
    var delivered: seq<LabeledValue>
    var attempts: seq<LabeledValue>
    var deliveryLatency: seq<LatencySummary>
    var httpLatency: seq<LatencySummary>

    constructor ()
      ensures created == delivered == attempts == [] && deliveryLatency == httpLatency == []
    {
      created, delivered, attempts, deliveryLatency, httpLatency := [], [], [], [], [];
    }

    method Visit(family: Family)
      modifies this
      ensures created == AddCounters(old(created), SeriesOf([family], CREATED))
      ensures delivered == AddCounters(old(delivered), SeriesOf([family], DELIVERED))
      ensures attempts == AddCounters(old(attempts), SeriesOf([family], ATTEMPTS))
      ensures deliveryLatency == AddHistograms(old(deliveryLatency), SeriesOf([family], DELIVERY_LATENCY))
      ensures httpLatency == AddHistograms(old(httpLatency), SeriesOf([family], HTTP_LATENCY))
    {
      forall name ensures SeriesOf([family], name) == if family.name == name then family.metrics else [] {
        assert [family][..0] == [];
      }
      if family.name == CREATED { created := MergeCounters(created, family.metrics); }
      else if family.name == DELIVERED { delivered := MergeCounters(delivered, family.metrics); }
      else if family.name == ATTEMPTS { attempts := MergeCounters(attempts, family.metrics); }
      else if family.name == DELIVERY_LATENCY { deliveryLatency := MergeHistograms(deliveryLatency, family.metrics); }
      else if family.name == HTTP_LATENCY { httpLatency := MergeHistograms(httpLatency, family.metrics); }
    }

    /** Each field takes up the series of its own family and no others. */
    method Accumulate(families: seq<Family>)
      modifies this
      ensures created == AddCounters(old(created), SeriesOf(families, "notifications_created_total"))
      ensures delivered == AddCounters(old(delivered), SeriesOf(families, "notifications_delivered_total"))
      ensures attempts == AddCounters(old(attempts), SeriesOf(families, "delivery_attempts_total"))
      ensures deliveryLatency == AddHistograms(old(deliveryLatency), SeriesOf(families, "delivery_duration_seconds"))
      ensures httpLatency == AddHistograms(old(httpLatency), SeriesOf(families, "http_request_duration_seconds"))
    {
      for k := 0 to |families|
        invariant created == AddCounters(old(created), SeriesOf(families[..k], CREATED))
        invariant delivered == AddCounters(old(delivered), SeriesOf(families[..k], DELIVERED))
        invariant attempts == AddCounters(old(attempts), SeriesOf(families[..k], ATTEMPTS))
        invariant deliveryLatency == AddHistograms(old(deliveryLatency), SeriesOf(families[..k], DELIVERY_LATENCY))
        invariant httpLatency == AddHistograms(old(httpLatency), SeriesOf(families[..k], HTTP_LATENCY))
      {
        Visit(families[k]);
        CountersTurn(old(created), families, k, CREATED);
        CountersTurn(old(delivered), families, k, DELIVERED);
        CountersTurn(old(attempts), families, k, ATTEMPTS);
        HistogramsTurn(old(deliveryLatency), families, k, DELIVERY_LATENCY);
        HistogramsTurn(old(httpLatency), families, k, HTTP_LATENCY);
      }
      assert families[..|families|] == families;
    }
  }

  lemma SeriesTurn(families: seq<Family>, k: nat, name: string)
    requires k < |families|
    ensures SeriesOf(families[..k + 1], name) == SeriesOf(families[..k], name) + SeriesOf([families[k]], name)
  {
    assert families[..k + 1][..k] == families[..k];
    assert [families[k]][..0] == [];
  }

  lemma CountersTurn(entries: seq<LabeledValue>, families: seq<Family>, k: nat, name: string)
    requires k < |families|
    ensures AddCounters(AddCounters(entries, SeriesOf(families[..k], name)), SeriesOf([families[k]], name))
              == AddCounters(entries, SeriesOf(families[..k + 1], name))
  {
    SeriesTurn(families, k, name);
    AddCountersConcat(entries, SeriesOf(families[..k], name), SeriesOf([families[k]], name));
  }

  lemma HistogramsTurn(entries: seq<LatencySummary>, families: seq<Family>, k: nat, name: string)
    requires k < |families|
    ensures AddHistograms(AddHistograms(entries, SeriesOf(families[..k], name)), SeriesOf([families[k]], name))
              == AddHistograms(entries, SeriesOf(families[..k + 1], name))
  {
    SeriesTurn(families, k, name);
    AddHistogramsConcat(entries, SeriesOf(families[..k], name), SeriesOf([families[k]], name));
  }
}
