/** salesAndAnalytics.js: the revenue chart. Daily revenue values are summed
    into weekly or monthly buckets, labelled, and the bucket size is chosen
    from the length of the picked date range. */
module SalesAnalytics {
  import opened Js

  /** Milliseconds in a day. */
  const DayMs := 86400000

  function Min(a: int, b: int): int { if a <= b then a else b }

  /** `Math.ceil(n / d)` for a positive divisor. */
  function CeilDiv(n: int, d: int): (q: int)
    requires d > 0
    ensures (q - 1) * d < n <= q * d
  {
    -((-n) / d)
  }

  // ---------------------------------------------------------------------------
  // Grouping

  /** `reduce((sum, v) => sum + v, 0)`. */
  function Sum(s: seq<real>): real {
    if s == [] then 0.0 else Sum(s[..|s| - 1]) + s[|s| - 1]
  }

  lemma {:induction false} SumConcat(a: seq<real>, b: seq<real>)
    ensures Sum(a + b) == Sum(a) + Sum(b)
    decreases |b|
  {
    if b == [] {
      assert a + b == a;
    } else {
      assert (a + b)[..|a + b| - 1] == a + b[..|b| - 1];
      SumConcat(a, b[..|b| - 1]);
    }
  }

  /** `values.slice(i, i + size)` for i = 0, size, 2·size, …: the buckets
      of `size` consecutive values, front to back; the last one holds what
      is left. */
  function Chunks(values: seq<real>, size: nat): seq<seq<real>>
    requires size >= 1
    decreases |values|
  {
    if values == [] then []
    else
      var m := Min(size, |values|);
      [values[..m]] + Chunks(values[m..], size)
  }

  /** One `reduce` sum per bucket. */
  function Sums(chunks: seq<seq<real>>): seq<real> {
    seq(|chunks|, k requires 0 <= k < |chunks| => Sum(chunks[k]))
  }

  /** The grouped chart values. */
  function Grouped(values: seq<real>, size: nat): seq<real>
    requires size >= 1
  {
    Sums(Chunks(values, size))
  }

  /** The buckets laid end to end. */
  function Concat(chunks: seq<seq<real>>): seq<real> {
    if chunks == [] then [] else chunks[0] + Concat(chunks[1..])
  }

  /** At most one whole number of `d`-sized steps is the least to cover `n`. */
  lemma CeilUnique(n: int, d: int, a: int, b: int)
    requires d > 0
    requires (a - 1) * d < n <= a * d
    requires (b - 1) * d < n <= b * d
    ensures a == b
  {
    if a < b {
      MulMonotone(a, b - 1, d);
    } else if b < a {
      MulMonotone(b, a - 1, d);
    }
  }

  lemma MulMonotone(x: int, y: int, d: int)
    requires x <= y && d > 0
    ensures x * d <= y * d
  {
    assert y * d - x * d == (y - x) * d;
  }

  lemma CeilDivStep(n: int, d: int)
    requires d > 0
    ensures 0 < n <= d ==> CeilDiv(n, d) == 1
    ensures CeilDiv(n + d, d) == CeilDiv(n, d) + 1
    ensures CeilDiv(0, d) == 0
  {
    if 0 < n <= d {
      CeilUnique(n, d, CeilDiv(n, d), 1);
    }
    var q := CeilDiv(n, d);
    assert (q + 1 - 1) * d < n + d <= (q + 1) * d;
    CeilUnique(n + d, d, CeilDiv(n + d, d), q + 1);
    CeilUnique(0, d, CeilDiv(0, d), 0);
  }

  /** There are ⌈n / size⌉ buckets. */
  lemma {:induction false} ChunksLength(values: seq<real>, size: nat)
    requires size >= 1
    ensures |Chunks(values, size)| == CeilDiv(|values|, size)
    decreases |values|
  {
    CeilDivStep(|values|, size);
    if values != [] {
      var m := Min(size, |values|);
      ChunksLength(values[m..], size);
      CeilDivStep(|values| - size, size);
    }
  }

  lemma GroupedLength(values: seq<real>, size: nat)
    requires size >= 1
    ensures |Grouped(values, size)| == CeilDiv(|values|, size)
  {
    ChunksLength(values, size);
  }

  /** One step of the grouping loop: the bucket starting at `i`, then the
      rest. */
  lemma ChunksStep(values: seq<real>, size: nat, i: nat)
    requires size >= 1 && i < |values|
    ensures Chunks(values[i..], size)
         == [values[i..Min(i + size, |values|)]] + Chunks(values[Min(i + size, |values|)..], size)
  {
    var m := Min(size, |values| - i);
    assert values[i..][..m] == values[i..Min(i + size, |values|)];
    assert values[i..][m..] == values[Min(i + size, |values|)..];
  }

  /** Bucket k holds exactly the values at k·size up to (k+1)·size, cut at n. */
  lemma ChunksAt(values: seq<real>, size: nat, k: nat)
    requires size >= 1 && k < |Chunks(values, size)|
    ensures k * size < |values|
    ensures Chunks(values, size)[k] == values[k * size .. Min(k * size + size, |values|)]
  {
    ChunksAtStart(values, size, k);
    StartIsProduct(k, size);
  }

  lemma GroupedAt(values: seq<real>, size: nat, k: nat)
    requires size >= 1 && k < |Grouped(values, size)|
    ensures k * size < |values|
    ensures Grouped(values, size)[k] == Sum(values[k * size .. Min(k * size + size, |values|)])
  {
    ChunksAt(values, size, k);
  }

  /** Where bucket `k` starts, counted in steps of `size`. */
  function Start(k: nat, size: nat): nat {
    if k == 0 then 0 else Start(k - 1, size) + size
  }

  lemma {:induction false} StartIsProduct(k: nat, size: nat)
    ensures Start(k, size) == k * size
  {
    if k > 0 {
      StartIsProduct(k - 1, size);
      assert (k - 1) * size + size == k * size;
    }
  }

  lemma {:induction false} ChunksAtStart(values: seq<real>, size: nat, k: nat)
    requires size >= 1 && k < |Chunks(values, size)|
    ensures Start(k, size) < |values|
    ensures Chunks(values, size)[k] == values[Start(k, size) .. Min(Start(k, size) + size, |values|)]
    decreases k
  {
    if k == 0 {
      assert values[0..Min(size, |values|)] == values[..Min(size, |values|)];
    } else {
      var rest, lo := values[size..], Start(k - 1, size);
      ChunksRest(values, size, k);
      ChunksAtStart(rest, size, k - 1);
      BucketShift(values, size, lo);
    }
  }

  /** Bucket k > 0 is bucket k - 1 of what follows the first `size` values. */
  lemma ChunksRest(values: seq<real>, size: nat, k: nat)
    requires size >= 1 && 0 < k < |Chunks(values, size)|
    ensures |values| > size && k - 1 < |Chunks(values[size..], size)|
    ensures Chunks(values, size)[k] == Chunks(values[size..], size)[k - 1]
  {
  }

  lemma BucketShift(values: seq<real>, size: nat, lo: nat)
    requires lo + size < |values|
    ensures values[size..][lo .. Min(lo + size, |values| - size)] == values[lo + size .. Min(lo + size + size, |values|)]
  {
  }

  /** The buckets laid end to end give back the values. */
  lemma {:induction false} ChunksConcat(values: seq<real>, size: nat)
    requires size >= 1
    ensures Concat(Chunks(values, size)) == values
    decreases |values|
  {
    if values != [] {
      var m := Min(size, |values|);
      ChunksConcat(values[m..], size);
      assert Chunks(values, size)[1..] == Chunks(values[m..], size);
      assert values[..m] + values[m..] == values;
    }
  }

  lemma SumsCons(chunk: seq<real>, chunks: seq<seq<real>>)
    ensures Sums([chunk] + chunks) == [Sum(chunk)] + Sums(chunks)
  {
  }

  lemma SumsSnoc(chunks: seq<seq<real>>, chunk: seq<real>)
    ensures Sums(chunks + [chunk]) == Sums(chunks) + [Sum(chunk)]
  {
  }

  /** Summing the bucket sums is summing everything. */
  lemma {:induction false} SumOfSums(chunks: seq<seq<real>>)
    ensures Sum(Sums(chunks)) == Sum(Concat(chunks))
    decreases |chunks|
  {
    if chunks != [] {
      SumOfSums(chunks[1..]);
      SumsCons(chunks[0], chunks[1..]);
      assert [chunks[0]] + chunks[1..] == chunks;
      SumConcat([Sum(chunks[0])], Sums(chunks[1..]));
      SumConcat(chunks[0], Concat(chunks[1..]));
      assert [Sum(chunks[0])][..0] == [];
    }
  }

  /** Grouping keeps the grand total. */
  lemma GroupedTotal(values: seq<real>, size: nat)
    requires size >= 1
    ensures Sum(Grouped(values, size)) == Sum(values)
  {
    SumOfSums(Chunks(values, size));
    ChunksConcat(values, size);
  }

  /** Buckets of one value are the values themselves. */
  lemma {:induction false} GroupedByOne(values: seq<real>)
    ensures Grouped(values, 1) == values
    decreases |values|
  {
    if values != [] {
      GroupedByOne(values[1..]);
      assert Chunks(values, 1) == [values[..1]] + Chunks(values[1..], 1);
      SumsCons(values[..1], Chunks(values[1..], 1));
      assert values[..1][..0] == [];
      assert values == [values[0]] + values[1..];
    }
  }

  /** `groupData(values, size)`: a copy for a size of at most 1, otherwise
      one sum per slice `values.slice(i, i + size)`. */
  method GroupData(values: seq<real>, size: int) returns (result: seq<real>)
    ensures size <= 1 ==> result == values
    ensures size > 1 ==> result == Grouped(values, size)
  {
    if size <= 1 {
      return values;
    }
    result := [];
    ghost var done: seq<seq<real>> := [];
    var i := 0;
    while i < |values|
      invariant 0 <= i
      invariant done + Chunks(values[Min(i, |values|)..], size) == Chunks(values, size)
      invariant result == Sums(done)
      decreases |values| - i
    {
      var chunk := values[i..Min(i + size, |values|)];
      ChunksStep(values, size, i);
      assert Min(i, |values|) == i;
      ghost var later := Chunks(values[Min(i + size, |values|)..], size);
      assert (done + [chunk]) + later == done + ([chunk] + later);
      SumsSnoc(done, chunk);
      result := result + [Sum(chunk)];
      done := done + [chunk];
      i := i + size;
    }
    assert values[Min(i, |values|)..] == [];
  }

  // ---------------------------------------------------------------------------
  // Labels

  function WeeklyLabels(totalDays: nat): (r: seq<string>)
    ensures |r| == CeilDiv(totalDays, 7)
    ensures forall i :: 0 <= i < |r| ==> r[i] == "Week " + IntToString(i + 1)
  {
    seq(CeilDiv(totalDays, 7), i => "Week " + IntToString(i + 1))
  }

  function MonthlyLabels(totalDays: nat): (r: seq<string>)
    ensures |r| == CeilDiv(totalDays, 30)
    ensures forall i :: 0 <= i < |r| ==> r[i] == "Month " + IntToString(i + 1)
  {
    seq(CeilDiv(totalDays, 30), i => "Month " + IntToString(i + 1))
  }

  lemma PrefixedNumbersDiffer(prefix: string, a: int, b: int)
    requires a != b
    ensures prefix + IntToString(a) != prefix + IntToString(b)
  {
    if prefix + IntToString(a) == prefix + IntToString(b) {
      assert (prefix + IntToString(a))[|prefix|..] == IntToString(a);
      assert (prefix + IntToString(b))[|prefix|..] == IntToString(b);
      IntToStringInjective(a, b);
    }
  }

  /** Week labels are numbered from 1 and no two are equal. */
  lemma WeeklyLabelsDistinct(totalDays: nat)
    ensures forall i, j :: 0 <= i < j < |WeeklyLabels(totalDays)| ==> WeeklyLabels(totalDays)[i] != WeeklyLabels(totalDays)[j]
    ensures |WeeklyLabels(totalDays)| > 0 ==> WeeklyLabels(totalDays)[0] == "Week 1"
  {
    var r := WeeklyLabels(totalDays);
    forall i, j | 0 <= i < j < |r|
      ensures r[i] != r[j]
    {
      PrefixedNumbersDiffer("Week ", i + 1, j + 1);
    }
    assert IntToString(1) == "1";
  }

  /** Month labels are numbered from 1 and no two are equal. */
  lemma MonthlyLabelsDistinct(totalDays: nat)
    ensures forall i, j :: 0 <= i < j < |MonthlyLabels(totalDays)| ==> MonthlyLabels(totalDays)[i] != MonthlyLabels(totalDays)[j]
    ensures |MonthlyLabels(totalDays)| > 0 ==> MonthlyLabels(totalDays)[0] == "Month 1"
  {
    var r := MonthlyLabels(totalDays);
    forall i, j | 0 <= i < j < |r|
      ensures r[i] != r[j]
    {
      PrefixedNumbersDiffer("Month ", i + 1, j + 1);
    }
    assert IntToString(1) == "1";
  }

  // ---------------------------------------------------------------------------
  // Range and granularity

  /** A date range as instants in milliseconds; `picked` tells whether both
      date inputs were filled. */
  datatype Range = Range(startMs: int, endMs: int, picked: bool)

  datatype Grouping = Daily | Weekly | Monthly

  /** `getSelectedRangeOrDefault()` as `daysBetween` later reads it. Each end
      of the range is passed on as `formatDate(d)`, the UTC date and time
      without milliseconds or offset, and `daysBetween` parses that text again
      with `new Date`, which takes such a text as local time. `reread(t)` is
      the instant that round trip gives for the instant `t`, and
      `weekBefore(t)` the instant `setDate(getDate() - 7)` gives for `t` in the
      browser's zone (`getLastWeekRange`). The range is picked iff both date
      inputs are filled. */
  function SelectedRange(startInput: Option<int>, endInput: Option<int>, nowMs: int,
                         weekBefore: int -> int, reread: int -> int): (r: Range)
    ensures r.picked <==> startInput.Some? && endInput.Some?
    ensures r.picked ==> r.startMs == reread(startInput.value) && r.endMs == reread(endInput.value)
    ensures !r.picked ==> r.startMs == reread(weekBefore(nowMs)) && r.endMs == reread(nowMs)
  {
    if startInput.None? || endInput.None? then Range(reread(weekBefore(nowMs)), reread(nowMs), false)
    else Range(reread(startInput.value), reread(endInput.value), true)
  }

  /** `daysBetween`: whole days, rounded up. */
  function DaysBetween(startMs: int, endMs: int): int {
    CeilDiv(endMs - startMs, DayMs)
  }

  /** The day count is the least whole number of days covering the span. */
  lemma DaysBetweenCovers(startMs: int, endMs: int)
    ensures var d := DaysBetween(startMs, endMs);
      (d - 1) * DayMs < endMs - startMs <= d * DayMs
  {
  }

  function DecideGrouping(range: Range): Grouping {
    if !range.picked then Daily
    else
      var diffDays := DaysBetween(range.startMs, range.endMs);
      if diffDays <= 7 then Daily
      else if diffDays <= 31 then Weekly
      else Monthly
  }

  /** The choice in terms of the span itself: up to a week is daily, up to 31
      days weekly, anything longer monthly; an unpicked range is daily. */
  lemma DecideGroupingBySpan(range: Range)
    ensures var span := range.endMs - range.startMs;
      && (DecideGrouping(range) == Daily <==> !range.picked || span <= 7 * DayMs)
      && (DecideGrouping(range) == Weekly <==> range.picked && 7 * DayMs < span <= 31 * DayMs)
      && (DecideGrouping(range) == Monthly <==> range.picked && 31 * DayMs < span)
  {
    var d := DaysBetween(range.startMs, range.endMs);
    DaysBetweenCovers(range.startMs, range.endMs);
    var span := range.endMs - range.startMs;
    if d <= 7 {
      assert d * DayMs <= 7 * DayMs;
    } else {
      assert (d - 1) * DayMs >= 7 * DayMs;
    }
    if d <= 31 {
      assert d * DayMs <= 31 * DayMs;
    } else {
      assert (d - 1) * DayMs >= 31 * DayMs;
    }
  }

  /** When the re-read moves every instant by the same offset, as in a zone
      without a clock change between the two dates, a picked range is grouped
      as the span between the picked instants says; an unpicked one is always
      daily. Across a clock change the two offsets differ by an hour, and a
      span of exactly seven days then counts as eight. */
  lemma GroupingOfUniformReread(startInput: Option<int>, endInput: Option<int>, nowMs: int,
                                weekBefore: int -> int, reread: int -> int, offset: int)
    requires forall t :: reread(t) == t + offset
    ensures var r := SelectedRange(startInput, endInput, nowMs, weekBefore, reread);
      && (!r.picked ==> DecideGrouping(r) == Daily)
      && (r.picked ==> r.endMs - r.startMs == endInput.value - startInput.value
                       && DecideGrouping(r) == DecideGrouping(Range(startInput.value, endInput.value, true)))
  {
  }

  /** A re-read one hour later at the end than at the start turns a picked
      week into eight days, and the grouping from daily into weekly. */
  lemma ClockChangeRegroups(start: int, weekBefore: int -> int, reread: int -> int)
    requires reread(start) == start + 4 * 3600000
    requires reread(start + 7 * DayMs) == start + 7 * DayMs + 5 * 3600000
    ensures DecideGrouping(Range(start, start + 7 * DayMs, true)) == Daily
    ensures DecideGrouping(SelectedRange(Some(start), Some(start + 7 * DayMs), 0, weekBefore, reread)) == Weekly
  {
    DaysBetweenCovers(start, start + 7 * DayMs);
    DaysBetweenCovers(start + 4 * 3600000, start + 7 * DayMs + 5 * 3600000);
  }

  /** `updateChartGranularity(type)`: the bar values and labels for a
      grouping. */
  function ChartFor(grouping: Grouping, numbers: seq<real>, labels: seq<string>): (seq<real>, seq<string>) {
    match grouping
    case Daily => (numbers, labels)
    case Weekly => (Grouped(numbers, 7), WeeklyLabels(|numbers|))
    case Monthly => (Grouped(numbers, 30), MonthlyLabels(|numbers|))
  }

  /** Weekly and monthly charts have one label per bar; the daily chart shows
      the raw values and dates; every chart keeps the total revenue. */
  lemma ChartForContract(grouping: Grouping, numbers: seq<real>, labels: seq<string>)
    ensures var (values, shown) := ChartFor(grouping, numbers, labels);
      && Sum(values) == Sum(numbers)
      && (grouping == Daily ==> values == numbers && shown == labels)
      && (grouping != Daily ==> |values| == |shown|)
  {
    match grouping
    case Daily =>
    case Weekly =>
      GroupedLength(numbers, 7);
      GroupedTotal(numbers, 7);
    case Monthly =>
      GroupedLength(numbers, 30);
      GroupedTotal(numbers, 30);
  }

  /** One day of the sales reply: its `period` and `value`. */
  datatype DailySale = DailySale(period: string, value: real)

  /** The chart's module state. */
  class SalesChart {
    var rawLabels: seq<string>
    var rawNumbers: seq<real>
    /** What the chart shows. */
    var values: seq<real>
    var labels: seq<string>

    constructor ()
      ensures rawLabels == [] && rawNumbers == [] && values == [] && labels == []
    {
      rawLabels := [];
      rawNumbers := [];
      values := [];
      labels := [];
    }

    method UpdateChartGranularity(grouping: Grouping)
      modifies this
      ensures (values, labels) == ChartFor(grouping, rawNumbers, rawLabels)
      ensures rawLabels == old(rawLabels) && rawNumbers == old(rawNumbers)
    {
      var size := match grouping case Daily => 1 case Weekly => 7 case Monthly => 30;
      var grouped := GroupData(rawNumbers, size);
      if grouping == Daily {
        GroupedByOne(rawNumbers);
        labels := rawLabels;
      } else if grouping == Weekly {
        labels := WeeklyLabels(|rawNumbers|);
      } else {
        labels := MonthlyLabels(|rawNumbers|);
      }
      values := grouped;
    }

    /** `initSalesChart(range)` with `reply` the decoded sales rows, `None`
      when the request or its decoding failed (the error is only logged). */
    method InitSalesChart(range: Range, reply: Option<seq<DailySale>>)
      modifies this
      ensures reply.None? ==> rawLabels == old(rawLabels) && rawNumbers == old(rawNumbers)
                              && values == old(values) && labels == old(labels)
      ensures reply.Some? ==>
        && rawLabels == seq(|reply.value|, i requires 0 <= i < |reply.value| => reply.value[i].period)
        && rawNumbers == seq(|reply.value|, i requires 0 <= i < |reply.value| => reply.value[i].value)
        && (values, labels) == ChartFor(DecideGrouping(range), rawNumbers, rawLabels)
    {
      if reply.None? {
        return;
      }
      var rows := reply.value;
      rawLabels := seq(|rows|, i requires 0 <= i < |rows| => rows[i].period);
      rawNumbers := seq(|rows|, i requires 0 <= i < |rows| => rows[i].value);
      UpdateChartGranularity(DecideGrouping(range));
    }
  }
}
