/**
 The distribution of sample durations: the longest samples are discarded up to a share of all
 cycles, the rest is grouped by duration, and running sums over the groups give a plain and a
 cycle-weighted cumulative distribution.
 */
module Cdf {

  // The branch type may be null.
  datatype Branch = NoBranch | TraceBegin | OtherBranch

  datatype Sample = Sample(insns: nat, cycles: nat, branch: Branch)

  // ---------- samples_for_cdf ----------

  // Comparing a null branch type with 'trace begin' is not true, so those rows go as well.
  function WithoutTraceBegin(samples: seq<Sample>): seq<Sample> {
    if samples == [] then []
    else (if samples[0].branch.OtherBranch? then [samples[0]] else []) + WithoutTraceBegin(samples[1..])
  }

  // Cycles of the rows that last at least d: the window over descending durations includes
  // every row that ties with the current one.
  function CyclesFrom(rows: seq<Sample>, d: nat): nat {
    if rows == [] then 0
    else (if rows[0].cycles >= d then rows[0].cycles else 0) + CyclesFrom(rows[1..], d)
  }

  function Total(rows: seq<Sample>): nat {
    if rows == [] then 0 else rows[0].cycles + Total(rows[1..])
  }

  function Share(cycles: nat, total: nat): real
    requires total > 0
  {
    cycles as real / total as real
  }

  predicate Kept(rows: seq<Sample>, d: nat, limit: real)
    requires Total(rows) > 0
  {
    Share(CyclesFrom(rows, d), Total(rows)) > limit
  }

  function Filtered(rows: seq<Sample>, all: seq<Sample>, limit: real): seq<Sample>
    requires Total(all) > 0
  {
    if rows == [] then []
    else (if Kept(all, rows[0].cycles, limit) then [rows[0]] else []) + Filtered(rows[1..], all, limit)
  }

  function SamplesForCdf(samples: seq<Sample>, limit: real): seq<Sample>
    requires Total(WithoutTraceBegin(samples)) > 0
  {
    var t1 := WithoutTraceBegin(samples);
    Filtered(t1, t1, limit)
  }

  // ---------- what is discarded ----------

  // The samples that count: with a branch type other than 'trace begin'.
  ghost function Present(samples: seq<Sample>): set<nat> {
    set i | 0 <= i < |samples| && samples[i].branch.OtherBranch?
  }

  // A set of them that contains, with each sample, every one lasting at least as long.
  ghost predicate LongestSamples(samples: seq<Sample>, chosen: set<nat>) {
    && chosen <= Present(samples)
    && forall i, j :: i in chosen && j in Present(samples) && samples[j].cycles >= samples[i].cycles ==> j in chosen
  }

  // Cycles of the chosen samples among the first n.
  ghost function CyclesOf(samples: seq<Sample>, chosen: set<nat>, n: nat): nat
    requires n <= |samples|
  {
    if n == 0 then 0
    else CyclesOf(samples, chosen, n - 1) + if n - 1 in chosen then samples[n - 1].cycles else 0
  }

  ghost function AllCycles(samples: seq<Sample>, chosen: set<nat>): nat {
    CyclesOf(samples, chosen, |samples|)
  }

  ghost function AtLeast(samples: seq<Sample>, d: nat): set<nat> {
    set i | i in Present(samples) && samples[i].cycles >= d
  }

  lemma {:induction false} CyclesFromAppend(rows: seq<Sample>, last: Sample, d: nat)
    ensures CyclesFrom(rows + [last], d) == CyclesFrom(rows, d) + if last.cycles >= d then last.cycles else 0
  {
    if rows != [] {
      CyclesFromAppend(rows[1..], last, d);
      assert (rows + [last])[1..] == rows[1..] + [last];
    }
  }

  lemma {:induction false} WithoutTraceBeginAppend(samples: seq<Sample>, last: Sample)
    ensures WithoutTraceBegin(samples + [last])
         == WithoutTraceBegin(samples) + if last.branch.OtherBranch? then [last] else []
  {
    if samples != [] {
      WithoutTraceBeginAppend(samples[1..], last);
      assert (samples + [last])[1..] == samples[1..] + [last];
    }
  }

  // The window sum, over the samples themselves.
  lemma {:induction false} CyclesFromIs(samples: seq<Sample>, d: nat, n: nat)
    requires n <= |samples|
    ensures CyclesFrom(WithoutTraceBegin(samples[..n]), d) == CyclesOf(samples, AtLeast(samples, d), n)
  {
    if n > 0 {
      var last := samples[n - 1];
      CyclesFromIs(samples, d, n - 1);
      WithoutTraceBeginAppend(samples[..n - 1], last);
      CyclesFromAppend(WithoutTraceBegin(samples[..n - 1]), last, d);
      assert samples[..n] == samples[..n - 1] + [last];
      var rows := WithoutTraceBegin(samples[..n - 1]);
      assert n - 1 in AtLeast(samples, d) <==> last.branch.OtherBranch? && last.cycles >= d;
      hide WithoutTraceBegin;
      hide CyclesFrom;
      hide AtLeast;
      assert rows + [] == rows;
    }
  }

  lemma WindowSumIs(samples: seq<Sample>, d: nat)
    ensures CyclesFrom(WithoutTraceBegin(samples), d) == AllCycles(samples, AtLeast(samples, d))
  {
    CyclesFromIs(samples, d, |samples|);
    assert samples[..|samples|] == samples;
  }

  lemma {:induction false} CyclesFromZero(rows: seq<Sample>)
    ensures CyclesFrom(rows, 0) == Total(rows)
  {
    if rows != [] { CyclesFromZero(rows[1..]); }
  }

  lemma TotalIs(samples: seq<Sample>)
    ensures Total(WithoutTraceBegin(samples)) == AllCycles(samples, Present(samples))
  {
    CyclesFromZero(WithoutTraceBegin(samples));
    WindowSumIs(samples, 0);
    assert AtLeast(samples, 0) == Present(samples);
  }

  lemma {:induction false} MoreCycles(samples: seq<Sample>, a: set<nat>, b: set<nat>, n: nat)
    requires n <= |samples| && a <= b
    ensures CyclesOf(samples, a, n) <= CyclesOf(samples, b, n)
  {
    if n > 0 { MoreCycles(samples, a, b, n - 1); }
  }

  lemma ShareGrows(a: nat, b: nat, total: nat)
    requires a <= b && total > 0
    ensures Share(a, total) <= Share(b, total)
  {
    assert a as real <= b as real;
    assert (b - a) as real / total as real >= 0.0;
    assert Share(b, total) == Share(a, total) + (b - a) as real / total as real;
  }

  // Sample i goes if the samples lasting at least as long hold at most the configured share.
  lemma GoesIff(samples: seq<Sample>, limit: real, i: nat)
    requires Total(WithoutTraceBegin(samples)) > 0 && i in Present(samples)
    ensures !Kept(WithoutTraceBegin(samples), samples[i].cycles, limit) <==>
              Share(AllCycles(samples, AtLeast(samples, samples[i].cycles)), Total(WithoutTraceBegin(samples))) <= limit
  {
    WindowSumIs(samples, samples[i].cycles);
  }

  ghost function Discarded(samples: seq<Sample>, limit: real): set<nat>
    requires Total(WithoutTraceBegin(samples)) > 0
  {
    set i | i in Present(samples) && !Kept(WithoutTraceBegin(samples), samples[i].cycles, limit)
  }

  lemma DiscardedAreLongest(samples: seq<Sample>, limit: real)
    requires Total(WithoutTraceBegin(samples)) > 0
    ensures LongestSamples(samples, Discarded(samples, limit))
  {
    var D, total := Discarded(samples, limit), Total(WithoutTraceBegin(samples));
    forall i, j | i in D && j in Present(samples) && samples[j].cycles >= samples[i].cycles
      ensures j in D
    {
      GoesIff(samples, limit, i);
      GoesIff(samples, limit, j);
      var more, fewer := AtLeast(samples, samples[i].cycles), AtLeast(samples, samples[j].cycles);
      MoreCycles(samples, fewer, more, |samples|);
      ShareGrows(AllCycles(samples, fewer), AllCycles(samples, more), total);
    }
  }

  lemma DiscardedWithinLimit(samples: seq<Sample>, limit: real)
    requires Total(WithoutTraceBegin(samples)) > 0
    ensures var D, total := Discarded(samples, limit), Total(WithoutTraceBegin(samples));
            if limit >= 0.0 then Share(AllCycles(samples, D), total) <= limit else D == {}
  {
    var D, total := Discarded(samples, limit), Total(WithoutTraceBegin(samples));
    if D == {} {
      NothingChosen(samples, D, |samples|);
      assert Share(0, total) == 0.0;
    } else {
      var i := Shortest(samples, D);
      var least := AtLeast(samples, samples[i].cycles);
      GoesIff(samples, limit, i);
      assert D <= least;
      MoreCycles(samples, D, least, |samples|);
      ShareGrows(AllCycles(samples, D), AllCycles(samples, least), total);
      ShareGrows(0, AllCycles(samples, D), total);
      assert Share(0, total) == 0.0;
    }
  }

  lemma NothingLargerAllowed(samples: seq<Sample>, limit: real, chosen: set<nat>)
    requires Total(WithoutTraceBegin(samples)) > 0 && LongestSamples(samples, chosen)
    requires Share(AllCycles(samples, chosen), Total(WithoutTraceBegin(samples))) <= limit
    ensures chosen <= Discarded(samples, limit)
  {
    forall i | i in chosen
      ensures i in Discarded(samples, limit)
    {
      GoesIff(samples, limit, i);
      var least := AtLeast(samples, samples[i].cycles);
      MoreCycles(samples, least, chosen, |samples|);
      ShareGrows(AllCycles(samples, least), AllCycles(samples, chosen), Total(WithoutTraceBegin(samples)));
    }
  }

  lemma {:induction false} NothingChosen(samples: seq<Sample>, chosen: set<nat>, n: nat)
    requires n <= |samples| && chosen == {}
    ensures CyclesOf(samples, chosen, n) == 0
  {
    if n > 0 { NothingChosen(samples, chosen, n - 1); }
  }

  lemma {:induction false} Shortest(samples: seq<Sample>, chosen: set<nat>) returns (i: nat)
    requires chosen != {} && forall j :: j in chosen ==> j < |samples|
    ensures i in chosen && forall j :: j in chosen ==> samples[i].cycles <= samples[j].cycles
    decreases |chosen|
  {
    var first :| first in chosen;
    var rest := chosen - {first};
    i := first;
    if rest != {} {
      var k := Shortest(samples, rest);
      if samples[k].cycles < samples[first].cycles { i := k; }
    }
    forall j | j in chosen
      ensures samples[i].cycles <= samples[j].cycles
    {
      assert j == first || j in rest;
    }
  }

  predicate Stays(samples: seq<Sample>, all: seq<Sample>, limit: real, i: int)
    requires Total(all) > 0
  {
    0 <= i < |samples| && samples[i].branch.OtherBranch? && Kept(all, samples[i].cycles, limit)
  }

  // index lists, in order, where the rows stand in the input.
  ghost predicate StandAt(rows: seq<Sample>, samples: seq<Sample>, index: seq<nat>, from: nat) {
    && |index| == |rows|
    && (forall k :: 0 <= k < |index| ==> from <= index[k] < |samples| && rows[k] == samples[index[k]])
    && (forall k, m :: 0 <= k < m < |index| ==> index[k] < index[m])
  }

  lemma StandBefore(rows: seq<Sample>, samples: seq<Sample>, index: seq<nat>, from: nat)
    requires from < |samples| && StandAt(rows, samples, index, from + 1)
    ensures StandAt(rows, samples, index, from)
    ensures StandAt([samples[from]] + rows, samples, [from] + index, from)
  {
  }

  lemma {:induction false} KeptFrom(samples: seq<Sample>, all: seq<Sample>, limit: real, from: nat)
      returns (index: seq<nat>)
    requires Total(all) > 0 && from <= |samples|
    ensures StandAt(Filtered(WithoutTraceBegin(samples[from..]), all, limit), samples, index, from)
    ensures forall i :: i in index <==> from <= i && Stays(samples, all, limit, i)
    decreases |samples| - from
  {
    if from == |samples| {
      index := [];
      FilteredEnds(samples, all, limit);
    } else {
      index := KeptFrom(samples, all, limit, from + 1);
      var rows := Filtered(WithoutTraceBegin(samples[from + 1..]), all, limit);
      FilteredUnfolds(samples, all, limit, from);
      StandBefore(rows, samples, index, from);
      hide StandAt;
      hide Filtered;
      hide WithoutTraceBegin;
      hide Kept;
      if Stays(samples, all, limit, from) {
        index := [from] + index;
      } else {
        assert [] + rows == rows;
      }
      hide Stays;
    }
  }

  lemma FilteredEnds(samples: seq<Sample>, all: seq<Sample>, limit: real)
    requires Total(all) > 0
    ensures Filtered(WithoutTraceBegin(samples[|samples|..]), all, limit) == []
  {
    assert samples[|samples|..] == [];
  }

  lemma FilteredUnfolds(samples: seq<Sample>, all: seq<Sample>, limit: real, from: nat)
    requires Total(all) > 0 && from < |samples|
    ensures Filtered(WithoutTraceBegin(samples[from..]), all, limit)
         == (if Stays(samples, all, limit, from) then [samples[from]] else [])
            + Filtered(WithoutTraceBegin(samples[from + 1..]), all, limit)
  {
    var tail := WithoutTraceBegin(samples[from + 1..]);
    assert samples[from..][1..] == samples[from + 1..];
    assert WithoutTraceBegin(samples[from..]) == (if samples[from].branch.OtherBranch? then [samples[from]] else []) + tail;
    if samples[from].branch.OtherBranch? {
      assert ([samples[from]] + tail)[1..] == tail;
    } else {
      assert [] + tail == tail;
    }
  }

  // The query's result is, in the order of the input, those samples that count and are not
  // discarded; and what is discarded is the largest set of longest samples, closed under ties,
  // that holds at most the configured share of all cycles.
  lemma {:induction false} DiscardsLargestAllowed(samples: seq<Sample>, limit: real) returns (index: seq<nat>)
    requires AllCycles(samples, Present(samples)) > 0
    ensures Total(WithoutTraceBegin(samples)) > 0
    ensures |index| == |SamplesForCdf(samples, limit)|
    ensures forall k :: 0 <= k < |index| ==>
              index[k] in Present(samples) && SamplesForCdf(samples, limit)[k] == samples[index[k]]
    ensures forall k, m :: 0 <= k < m < |index| ==> index[k] < index[m]
    ensures var total := AllCycles(samples, Present(samples)) as real;
            var D := Present(samples) - (set i | i in index);
            && LongestSamples(samples, D)
            && (if limit >= 0.0 then AllCycles(samples, D) as real / total <= limit else D == {})
            && forall S :: LongestSamples(samples, S) && AllCycles(samples, S) as real / total <= limit ==> S <= D
  {
    hide *;
    TotalIs(samples);
    index := KeptFrom(samples, WithoutTraceBegin(samples), limit, 0);
    assert samples[0..] == samples;
    ResultIs(samples, limit, index);
    AllStand(SamplesForCdf(samples, limit), samples, index);
    DiscardedAreLongest(samples, limit);
    DiscardedWithinLimit(samples, limit);
    var total := AllCycles(samples, Present(samples));
    ShareIs(AllCycles(samples, Discarded(samples, limit)), total);
    forall S | LongestSamples(samples, S) && AllCycles(samples, S) as real / total as real <= limit
      ensures S <= Discarded(samples, limit)
    {
      ShareIs(AllCycles(samples, S), total);
      NothingLargerAllowed(samples, limit, S);
    }
  }

  lemma AllStand(rows: seq<Sample>, samples: seq<Sample>, index: seq<nat>)
    requires StandAt(rows, samples, index, 0)
    ensures |index| == |rows|
    ensures forall k :: 0 <= k < |index| ==> index[k] < |samples| && rows[k] == samples[index[k]]
    ensures forall k, m :: 0 <= k < m < |index| ==> index[k] < index[m]
  {
  }

  lemma ShareIs(a: nat, total: nat)
    requires total > 0
    ensures Share(a, total) == a as real / total as real
  {
  }

  lemma ResultIs(samples: seq<Sample>, limit: real, index: seq<nat>)
    requires Total(WithoutTraceBegin(samples)) > 0
    requires forall i :: i in index <==> 0 <= i && Stays(samples, WithoutTraceBegin(samples), limit, i)
    ensures SamplesForCdf(samples, limit) == Filtered(WithoutTraceBegin(samples), WithoutTraceBegin(samples), limit)
    ensures Present(samples) - (set i | i in index) == Discarded(samples, limit)
    ensures forall k :: 0 <= k < |index| ==> index[k] in Present(samples)
  {
    hide Kept;
    hide Filtered;
    hide WithoutTraceBegin;
    forall k | 0 <= k < |index|
      ensures index[k] in Present(samples)
    {
      assert index[k] in index;
    }
  }

  // ---------- range_cdf ----------

  datatype Group = Group(cycCount: nat, c: nat, weightedC: nat, upTo1: nat, upTo20: nat, upTo100: nat)

  function Count(rows: seq<Sample>, d: nat): nat {
    if rows == [] then 0
    else (if rows[0].cycles == d then 1 else 0) + Count(rows[1..], d)
  }

  function CountShort(rows: seq<Sample>, d: nat, insns: nat): nat {
    if rows == [] then 0
    else (if rows[0].cycles == d && rows[0].insns <= insns then 1 else 0) + CountShort(rows[1..], d, insns)
  }

  function GroupAt(rows: seq<Sample>, d: nat): Group {
    Group(d, Count(rows, d), Count(rows, d) * d,
          CountShort(rows, d, 1), CountShort(rows, d, 20), CountShort(rows, d, 100))
  }

  // The groups with duration at most d, by increasing duration.
  function Groups(rows: seq<Sample>, d: nat): seq<Group> {
    (if d == 0 then [] else Groups(rows, d - 1))
    + (if Count(rows, d) > 0 then [GroupAt(rows, d)] else [])
  }

  function Longest(rows: seq<Sample>): nat {
    if rows == [] then 0
    else
      var rest := Longest(rows[1..]);
      if rows[0].cycles > rest then rows[0].cycles else rest
  }

  function SumC(groups: seq<Group>): nat {
    if groups == [] then 0 else SumC(groups[..|groups| - 1]) + groups[|groups| - 1].c
  }

  function SumW(groups: seq<Group>): nat {
    if groups == [] then 0 else SumW(groups[..|groups| - 1]) + groups[|groups| - 1].weightedC
  }

  function MaxOf(sums: seq<nat>): nat
    requires sums != []
  {
    if |sums| == 1 then sums[0]
    else
      var rest := MaxOf(sums[..|sums| - 1]);
      if sums[|sums| - 1] > rest then sums[|sums| - 1] else rest
  }

  // nonnormalized_cdf and nonnormalized_weighted_cdf.
  function RunningC(groups: seq<Group>): (r: seq<nat>)
    ensures |r| == |groups|
  {
    seq(|groups|, k requires 0 <= k < |groups| => SumC(groups[..k + 1]))
  }

  function RunningW(groups: seq<Group>): (r: seq<nat>)
    ensures |r| == |groups|
  {
    seq(|groups|, k requires 0 <= k < |groups| => SumW(groups[..k + 1]))
  }

  function AllGroups(rows: seq<Sample>): seq<Group> {
    if rows == [] then [] else Groups(rows, Longest(rows))
  }

  function CdfAt(rows: seq<Sample>, k: nat): real
    requires k < |AllGroups(rows)| && MaxOf(RunningC(AllGroups(rows))) > 0
  {
    Share(RunningC(AllGroups(rows))[k], MaxOf(RunningC(AllGroups(rows))))
  }

  function WeightedCdfAt(rows: seq<Sample>, k: nat): real
    requires k < |AllGroups(rows)| && MaxOf(RunningW(AllGroups(rows))) > 0
  {
    Share(RunningW(AllGroups(rows))[k], MaxOf(RunningW(AllGroups(rows))))
  }

  // ---------- the same, straight from the samples ----------

  function CountUpTo(rows: seq<Sample>, d: nat): nat {
    if rows == [] then 0
    else (if rows[0].cycles <= d then 1 else 0) + CountUpTo(rows[1..], d)
  }

  function CyclesUpTo(rows: seq<Sample>, d: nat): nat {
    if rows == [] then 0
    else (if rows[0].cycles <= d then rows[0].cycles else 0) + CyclesUpTo(rows[1..], d)
  }

  lemma {:induction false} UpToSplits(rows: seq<Sample>, d: nat)
    ensures CountUpTo(rows, d) == (if d == 0 then 0 else CountUpTo(rows, d - 1)) + Count(rows, d)
    ensures CyclesUpTo(rows, d) == (if d == 0 then 0 else CyclesUpTo(rows, d - 1)) + Count(rows, d) * d
  {
    if rows != [] {
      UpToSplits(rows[1..], d);
      assert (1 + Count(rows[1..], d)) * d == d + Count(rows[1..], d) * d;
    }
  }

  lemma {:induction false} GroupSums(rows: seq<Sample>, d: nat)
    ensures SumC(Groups(rows, d)) == CountUpTo(rows, d)
    ensures SumW(Groups(rows, d)) == CyclesUpTo(rows, d)
  {
    hide *;
    var shorter := if d == 0 then [] else Groups(rows, d - 1);
    UpToSplits(rows, d);
    if d > 0 { GroupSums(rows, d - 1); }
    SumsOfAppend(shorter, GroupAt(rows, d));
    OneMoreGroup(rows, d);
    NoSums();
  }

  lemma OneMoreGroup(rows: seq<Sample>, d: nat)
    ensures var shorter := if d == 0 then [] else Groups(rows, d - 1);
            Groups(rows, d) == if Count(rows, d) > 0 then shorter + [GroupAt(rows, d)] else shorter
    ensures GroupAt(rows, d).c == Count(rows, d) && GroupAt(rows, d).weightedC == Count(rows, d) * d
    ensures Count(rows, d) == 0 ==> Count(rows, d) * d == 0
  {
    hide Count;
    hide CountShort;
  }

  lemma NoSums()
    ensures SumC([]) == 0 && SumW([]) == 0
  {}

  lemma SumsOfAppend(groups: seq<Group>, g: Group)
    ensures SumC(groups + [g]) == SumC(groups) + g.c
    ensures SumW(groups + [g]) == SumW(groups) + g.weightedC
  {
    assert (groups + [g])[..|groups|] == groups;
  }

  lemma {:induction false} GroupPrefix(rows: seq<Sample>, d: nat, k: nat)
    requires k < |Groups(rows, d)|
    ensures var g := Groups(rows, d)[k];
            g.cycCount <= d && g == GroupAt(rows, g.cycCount) && g.c > 0
            && Groups(rows, d)[..k + 1] == Groups(rows, g.cycCount)
  {
    var shorter := if d == 0 then [] else Groups(rows, d - 1);
    if k < |shorter| {
      GroupPrefix(rows, d - 1, k);
      assert Groups(rows, d)[..k + 1] == shorter[..k + 1];
    } else {
      assert Groups(rows, d)[..k + 1] == Groups(rows, d);
    }
  }

  lemma {:induction false} GroupFor(rows: seq<Sample>, d: nat, e: nat) returns (k: nat)
    requires e <= d && Count(rows, e) > 0
    ensures k < |Groups(rows, d)| && Groups(rows, d)[k].cycCount == e
  {
    if e == d {
      k := |Groups(rows, d)| - 1;
    } else {
      k := GroupFor(rows, d - 1, e);
    }
  }

  lemma {:induction false} LongestCovers(rows: seq<Sample>, d: nat)
    requires d >= Longest(rows)
    ensures CountUpTo(rows, d) == |rows| && CyclesUpTo(rows, d) == Total(rows)
  {
    if rows != [] { LongestCovers(rows[1..], d); }
  }

  lemma {:induction false} LongestOccurs(rows: seq<Sample>)
    requires rows != []
    ensures Count(rows, Longest(rows)) > 0
  {
    if |rows| > 1 { LongestOccurs(rows[1..]); }
  }

  lemma {:induction false} UpToGrows(rows: seq<Sample>, d: nat, e: nat)
    requires d <= e
    ensures CountUpTo(rows, d) <= CountUpTo(rows, e) && CyclesUpTo(rows, d) <= CyclesUpTo(rows, e)
  {
    if rows != [] { UpToGrows(rows[1..], d, e); }
  }

  lemma {:induction false} MaxOfGrowing(sums: seq<nat>)
    requires sums != [] && forall i :: 0 <= i < |sums| ==> sums[i] <= sums[|sums| - 1]
    ensures MaxOf(sums) == sums[|sums| - 1]
  {
    if |sums| > 1 {
      var init := sums[..|sums| - 1];
      MaxIsElement(init);
    }
  }

  lemma {:induction false} MaxIsElement(sums: seq<nat>)
    requires sums != []
    ensures MaxOf(sums) in sums
  {
    if |sums| > 1 { MaxIsElement(sums[..|sums| - 1]); }
  }

  lemma RunningSumsAre(rows: seq<Sample>, k: nat)
    requires k < |AllGroups(rows)|
    ensures var d := AllGroups(rows)[k].cycCount;
            && RunningC(AllGroups(rows))[k] == CountUpTo(rows, d) <= |rows|
            && RunningW(AllGroups(rows))[k] == CyclesUpTo(rows, d) <= Total(rows)
            && d <= Longest(rows)
  {
    GroupPrefix(rows, Longest(rows), k);
    var d := AllGroups(rows)[k].cycCount;
    GroupSums(rows, d);
    UpToGrows(rows, d, Longest(rows));
    LongestCovers(rows, Longest(rows));
  }

  lemma LastGroupIsLongest(rows: seq<Sample>)
    requires rows != []
    ensures AllGroups(rows) != [] && AllGroups(rows)[|AllGroups(rows)| - 1].cycCount == Longest(rows)
  {
    LongestOccurs(rows);
  }

  lemma Maxima(rows: seq<Sample>)
    requires rows != []
    ensures AllGroups(rows) != []
    ensures MaxOf(RunningC(AllGroups(rows))) == |rows| && MaxOf(RunningW(AllGroups(rows))) == Total(rows)
  {
    hide *;
    LastGroupIsLongest(rows);
    LongestCovers(rows, Longest(rows));
    var gs := AllGroups(rows);
    forall k | 0 <= k < |gs|
      ensures RunningC(gs)[k] <= |rows| && RunningW(gs)[k] <= Total(rows)
    {
      RunningSumsAre(rows, k);
    }
    RunningSumsAre(rows, |gs| - 1);
    MaxOfGrowing(RunningC(gs));
    MaxOfGrowing(RunningW(gs));
  }

  // ---------- laws ----------

  // There is one row per duration that occurs, by increasing duration.
  lemma {:induction false} RowsAreDurations(rows: seq<Sample>, i: nat, j: nat)
    requires i < j < |AllGroups(rows)|
    ensures AllGroups(rows)[i].cycCount < AllGroups(rows)[j].cycCount
  {
    GroupPrefix(rows, Longest(rows), j);
    var e := AllGroups(rows)[j].cycCount;
    var shorter := if e == 0 then [] else Groups(rows, e - 1);
    assert Groups(rows, e)[i] == AllGroups(rows)[i];
    assert |Groups(rows, e)| == j + 1;
    assert e > 0 && i < |shorter|;
    GroupPrefix(rows, e - 1, i);
  }

  lemma {:induction false} EveryDurationHasRow(rows: seq<Sample>, r: Sample) returns (k: nat)
    requires r in rows
    ensures k < |AllGroups(rows)| && AllGroups(rows)[k].cycCount == r.cycles
  {
    Occurs(rows, r);
    k := GroupFor(rows, Longest(rows), r.cycles);
  }

  lemma {:induction false} Occurs(rows: seq<Sample>, r: Sample)
    requires r in rows
    ensures Count(rows, r.cycles) > 0 && r.cycles <= Longest(rows)
  {
    if rows[0] != r { Occurs(rows[1..], r); }
  }

  // The running sums over groups are what one gets by counting samples directly.
  lemma {:induction false} CdfCountsSamples(rows: seq<Sample>, k: nat)
    requires Total(rows) > 0 && k < |AllGroups(rows)|
    ensures MaxOf(RunningC(AllGroups(rows))) > 0 && MaxOf(RunningW(AllGroups(rows))) > 0
    ensures CdfAt(rows, k) == Share(CountUpTo(rows, AllGroups(rows)[k].cycCount), |rows|)
    ensures WeightedCdfAt(rows, k) == Share(CyclesUpTo(rows, AllGroups(rows)[k].cycCount), Total(rows))
  {
    Maxima(rows);
    RunningSumsAre(rows, k);
  }

  // The rows that last at most d, those that last exactly d, and of these the ones with at
  // most the given number of instructions.
  ghost function UpTo(rows: seq<Sample>, d: nat): set<nat> {
    set i | 0 <= i < |rows| && rows[i].cycles <= d
  }

  ghost function AllRows(rows: seq<Sample>): set<nat> {
    set i | 0 <= i < |rows| && rows[i] in rows
  }

  ghost function Lasting(rows: seq<Sample>, d: nat): set<nat> {
    set i | 0 <= i < |rows| && rows[i].cycles == d
  }

  ghost function LastingWith(rows: seq<Sample>, d: nat, insns: nat): set<nat> {
    set i | 0 <= i < |rows| && rows[i].cycles == d && rows[i].insns <= insns
  }

  lemma {:induction false} CountsAppend(rows: seq<Sample>, x: Sample, d: nat, insns: nat)
    ensures Count(rows + [x], d) == Count(rows, d) + if x.cycles == d then 1 else 0
    ensures CountShort(rows + [x], d, insns) == CountShort(rows, d, insns) + if x.cycles == d && x.insns <= insns then 1 else 0
    ensures CountUpTo(rows + [x], d) == CountUpTo(rows, d) + if x.cycles <= d then 1 else 0
    ensures CyclesUpTo(rows + [x], d) == CyclesUpTo(rows, d) + if x.cycles <= d then x.cycles else 0
  {
    if rows != [] {
      CountsAppend(rows[1..], x, d, insns);
      assert (rows + [x])[1..] == rows[1..] + [x];
    }
  }

  // One more row, seen by the sets.
  lemma LastingAppend(rows: seq<Sample>, x: Sample, d: nat)
    ensures |Lasting(rows + [x], d)| == |Lasting(rows, d)| + if x.cycles == d then 1 else 0
  {
    var n, before, all := |rows|, Lasting(rows, d), Lasting(rows + [x], d);
    forall i: nat
      ensures i in all <==> i in before || (i == n && x.cycles == d)
    {
      if i < n { assert (rows + [x])[i] == rows[i]; }
    }
    assert all == if x.cycles == d then before + {n} else before;
  }

  lemma LastingWithAppend(rows: seq<Sample>, x: Sample, d: nat, insns: nat)
    ensures |LastingWith(rows + [x], d, insns)| == |LastingWith(rows, d, insns)| + if x.cycles == d && x.insns <= insns then 1 else 0
  {
    var n, before, all := |rows|, LastingWith(rows, d, insns), LastingWith(rows + [x], d, insns);
    forall i: nat
      ensures i in all <==> i in before || (i == n && x.cycles == d && x.insns <= insns)
    {
      if i < n { assert (rows + [x])[i] == rows[i]; }
    }
    assert all == if x.cycles == d && x.insns <= insns then before + {n} else before;
  }

  lemma UpToAppend(rows: seq<Sample>, x: Sample, d: nat)
    ensures |UpTo(rows + [x], d)| == |UpTo(rows, d)| + if x.cycles <= d then 1 else 0
  {
    var n, before, all := |rows|, UpTo(rows, d), UpTo(rows + [x], d);
    forall i: nat
      ensures i in all <==> i in before || (i == n && x.cycles <= d)
    {
      if i < n { assert (rows + [x])[i] == rows[i]; }
    }
    assert all == if x.cycles <= d then before + {n} else before;
  }

  lemma {:induction false} CountsAreSizes(rows: seq<Sample>, d: nat, insns: nat)
    ensures Count(rows, d) == |Lasting(rows, d)| && CountShort(rows, d, insns) == |LastingWith(rows, d, insns)|
    ensures CountUpTo(rows, d) == |UpTo(rows, d)|
  {
    if rows == [] {
      assert Lasting(rows, d) == {} && LastingWith(rows, d, insns) == {} && UpTo(rows, d) == {};
    } else {
      var front, x := rows[..|rows| - 1], rows[|rows| - 1];
      assert rows == front + [x];
      CountsAreSizes(front, d, insns);
      CountsAppend(front, x, d, insns);
      LastingAppend(front, x, d);
      LastingWithAppend(front, x, d, insns);
      UpToAppend(front, x, d);
      hide *;
    }
  }

  lemma {:induction false} CyclesUpToIs(rows: seq<Sample>, d: nat, n: nat)
    requires n <= |rows|
    ensures CyclesUpTo(rows[..n], d) == CyclesOf(rows, UpTo(rows, d), n)
  {
    if n > 0 {
      CyclesUpToIs(rows, d, n - 1);
      CountsAppend(rows[..n - 1], rows[n - 1], d, 0);
      assert rows[..n] == rows[..n - 1] + [rows[n - 1]];
    }
  }

  // In plain terms: the share of the rows, and of their cycles, that last no longer.
  lemma {:induction false} CdfIsShareOfRows(rows: seq<Sample>, k: nat)
    requires Total(rows) > 0 && k < |AllGroups(rows)|
    ensures MaxOf(RunningC(AllGroups(rows))) > 0 && MaxOf(RunningW(AllGroups(rows))) > 0
    ensures var d, all := AllGroups(rows)[k].cycCount, AllRows(rows);
            && AllCycles(rows, all) > 0
            && CdfAt(rows, k) == |UpTo(rows, d)| as real / |rows| as real
            && WeightedCdfAt(rows, k) == AllCycles(rows, UpTo(rows, d)) as real / AllCycles(rows, all) as real
  {
    var d, all := AllGroups(rows)[k].cycCount, AllRows(rows);
    CdfCountsSamples(rows, k);
    CountsAreSizes(rows, d, 0);
    CyclesUpToIs(rows, d, |rows|);
    CyclesUpToIs(rows, Longest(rows), |rows|);
    LongestCovers(rows, Longest(rows));
    NoneLonger(rows);
    assert rows[..|rows|] == rows;
    assert UpTo(rows, Longest(rows)) == all;
    assert AllCycles(rows, all) == Total(rows);
  }

  lemma {:induction false} NoneLonger(rows: seq<Sample>)
    ensures forall i :: 0 <= i < |rows| ==> rows[i].cycles <= Longest(rows)
  {
    if rows != [] { NoneLonger(rows[1..]); }
  }

  // Short samples hold at most their own length each, long ones at least one cycle more.
  lemma {:induction false} WeightBounds(rows: seq<Sample>, d: nat)
    ensures CountUpTo(rows, d) <= |rows| && CyclesUpTo(rows, d) <= Total(rows)
    ensures CyclesUpTo(rows, d) <= d * CountUpTo(rows, d)
    ensures Total(rows) - CyclesUpTo(rows, d) >= (d + 1) * (|rows| - CountUpTo(rows, d))
  {
    if rows != [] {
      WeightBounds(rows[1..], d);
      var n, m := CountUpTo(rows[1..], d), |rows| - 1;
      assert d * (n + 1) == d * n + d;
      assert (d + 1) * (m + 1 - n) == (d + 1) * (m - n) + (d + 1);
      assert (d + 1) * (m + 1 - (n + 1)) == (d + 1) * (m - n);
    }
  }

  lemma {:induction false} CrossProducts(w1: nat, w2: nat, n1: nat, n2: nat, d: nat)
    requires w1 <= d * n1 && w2 >= (d + 1) * n2
    ensures w1 * n2 <= n1 * w2
    ensures n1 > 0 && n2 > 0 ==> w1 * n2 < n1 * w2
  {
    var both := n1 * n2;
    ProductGrows(w1, d * n1, n2);
    ProductGrows((d + 1) * n2, w2, n1);
    assert (d * n1) * n2 == d * both;
    assert (d + 1) * n2 * n1 == d * both + both by {
      assert (d + 1) * n2 * n1 == (d + 1) * both;
    }
    assert w2 * n1 == n1 * w2;
    if n1 > 0 && n2 > 0 { ProductGrows(1, n1, n2); }
  }

  lemma ProductGrows(a: nat, b: nat, c: nat)
    requires a <= b
    ensures a * c <= b * c
  {
    assert b * c == a * c + (b - a) * c;
  }

  lemma SharesCompare(a: nat, b: nat, p: nat, q: nat)
    requires b > 0 && q > 0
    ensures Share(a, b) <= Share(p, q) <==> a * q <= p * b
    ensures Share(a, b) == Share(p, q) <==> a * q == p * b
  {
    var x, y := Share(a, b), Share(p, q);
    var br, qr := b as real, q as real;
    assert x * br == a as real && y * qr == p as real;
    assert (a * q) as real == (x * br) * qr;
    assert (p * b) as real == (y * qr) * br;
    assert (x * br) * qr == x * (br * qr) && (y * qr) * br == y * (br * qr);
    var z := br * qr;
    assert z > 0.0;
    assert x <= y <==> x * z <= y * z;
    assert x == y <==> x * z == y * z;
  }

  // Weighting by cycles only lowers the distribution, strictly so before the longest duration,
  // where both reach 1.
  lemma {:induction false} WeightedBelowPlain(rows: seq<Sample>, k: nat)
    requires Total(rows) > 0 && k < |AllGroups(rows)|
    ensures MaxOf(RunningC(AllGroups(rows))) > 0 && MaxOf(RunningW(AllGroups(rows))) > 0
    ensures WeightedCdfAt(rows, k) <= CdfAt(rows, k)
    ensures WeightedCdfAt(rows, k) == CdfAt(rows, k) <==> k == |AllGroups(rows)| - 1
    ensures k == |AllGroups(rows)| - 1 ==> WeightedCdfAt(rows, k) == CdfAt(rows, k) == 1.0
  {
    hide *;
    CdfCountsSamples(rows, k);
    var d := AllGroups(rows)[k].cycCount;
    WeightBounds(rows, d);
    RowCounts(rows, k);
    CompareShares(CyclesUpTo(rows, d), Total(rows), CountUpTo(rows, d), |rows|, d);
    if k < |AllGroups(rows)| - 1 {
      NotAllUpTo(rows, k);
    } else {
      LastGroupIsLongest(rows);
      LongestCovers(rows, Longest(rows));
      WholeShare(|rows|);
      WholeShare(Total(rows));
    }
  }

  lemma WholeShare(n: nat)
    requires n > 0
    ensures Share(n, n) == 1.0
  {}

  lemma CompareShares(w1: nat, w: nat, n1: nat, n: nat, d: nat)
    requires w1 <= w && w > 0 && 0 < n1 <= n
    requires w1 <= d * n1 && w - w1 >= (d + 1) * (n - n1)
    ensures Share(w1, w) <= Share(n1, n)
    ensures n1 < n ==> Share(w1, w) < Share(n1, n)
  {
    CrossProducts(w1, w - w1, n1, n - n1, d);
    SharesCompare(w1, w, n1, n);
    assert w1 * n == w1 * (n - n1) + w1 * n1;
    assert n1 * w == n1 * (w - w1) + n1 * w1;
  }

  lemma RowOccurs(rows: seq<Sample>, k: nat)
    requires k < |AllGroups(rows)|
    ensures Count(rows, AllGroups(rows)[k].cycCount) > 0
  {
    GroupPrefix(rows, Longest(rows), k);
  }

  lemma RowCounts(rows: seq<Sample>, k: nat)
    requires k < |AllGroups(rows)|
    ensures CountUpTo(rows, AllGroups(rows)[k].cycCount) > 0
  {
    GroupPrefix(rows, Longest(rows), k);
    UpToSplits(rows, AllGroups(rows)[k].cycCount);
  }

  lemma NotAllUpTo(rows: seq<Sample>, k: nat)
    requires k + 1 < |AllGroups(rows)|
    ensures CountUpTo(rows, AllGroups(rows)[k].cycCount) < |rows|
  {
    var d, e := AllGroups(rows)[k].cycCount, AllGroups(rows)[k + 1].cycCount;
    RowsAreDurations(rows, k, k + 1);
    GroupPrefix(rows, Longest(rows), k + 1);
    UpToSplits(rows, e);
    UpToGrows(rows, d, e - 1);
    WeightBounds(rows, e);
  }

  // Both columns are nondecreasing, the plain one strictly increasing.
  lemma {:induction false} CdfsIncrease(rows: seq<Sample>, i: nat, j: nat)
    requires Total(rows) > 0 && i < j < |AllGroups(rows)|
    ensures MaxOf(RunningC(AllGroups(rows))) > 0 && MaxOf(RunningW(AllGroups(rows))) > 0
    ensures CdfAt(rows, i) < CdfAt(rows, j) && WeightedCdfAt(rows, i) < WeightedCdfAt(rows, j)
  {
    hide *;
    CdfCountsSamples(rows, i);
    CdfCountsSamples(rows, j);
    RowsAreDurations(rows, i, j);
    var d, e := AllGroups(rows)[i].cycCount, AllGroups(rows)[j].cycCount;
    RowOccurs(rows, j);
    UpToSplits(rows, e);
    UpToGrows(rows, d, e - 1);
    assert Count(rows, e) * e > 0;
    WeightBounds(rows, e);
    ShareIncreases(CountUpTo(rows, d), CountUpTo(rows, e), |rows|);
    ShareIncreases(CyclesUpTo(rows, d), CyclesUpTo(rows, e), Total(rows));
  }

  lemma ShareIncreases(a: nat, b: nat, total: nat)
    requires a < b && total > 0
    ensures Share(a, total) < Share(b, total)
  {
    ShareGrows(a, b, total);
    SharesCompare(a, total, b, total);
    assert a * total < b * total;
  }

  datatype Stacked = Stacked(upTo1: real, upTo20: real, upTo100: real, more: real)

  function StackedAt(g: Group): Stacked
    requires g.c > 0
  {
    Stacked(
      Share(g.upTo1, g.c), Share(g.upTo20, g.c) - Share(g.upTo1, g.c),
      Share(g.upTo100, g.c) - Share(g.upTo20, g.c), 1.0 - Share(g.upTo100, g.c))
  }

  // The four stacked shares of each duration are nonnegative and add up to 1.
  lemma {:induction false} StackedSharesAddUp(rows: seq<Sample>, k: nat)
    requires k < |AllGroups(rows)|
    ensures AllGroups(rows)[k].c > 0
    ensures var s := StackedAt(AllGroups(rows)[k]);
            && s.upTo1 >= 0.0 && s.upTo20 >= 0.0 && s.upTo100 >= 0.0 && s.more >= 0.0
            && s.upTo1 + s.upTo20 + s.upTo100 + s.more == 1.0
  {
    GroupPrefix(rows, Longest(rows), k);
    var g := AllGroups(rows)[k];
    ShortCountsNest(rows, g.cycCount);
    ShareGrows(0, g.upTo1, g.c);
    ShareGrows(g.upTo1, g.upTo20, g.c);
    ShareGrows(g.upTo20, g.upTo100, g.c);
    ShareGrows(g.upTo100, g.c, g.c);
    WholeShare(g.c);
  }

  // They count the rows of that duration with at most 1, 20 and 100 instructions.
  lemma {:induction false} StackedSharesCount(rows: seq<Sample>, k: nat)
    requires k < |AllGroups(rows)|
    ensures AllGroups(rows)[k].c > 0
    ensures var s, d := StackedAt(AllGroups(rows)[k]), AllGroups(rows)[k].cycCount;
            var c := |Lasting(rows, d)| as real;
            && c > 0.0
            && s.upTo1 == |LastingWith(rows, d, 1)| as real / c
            && s.upTo1 + s.upTo20 == |LastingWith(rows, d, 20)| as real / c
            && s.upTo1 + s.upTo20 + s.upTo100 == |LastingWith(rows, d, 100)| as real / c
  {
    GroupPrefix(rows, Longest(rows), k);
    var d := AllGroups(rows)[k].cycCount;
    CountsAreSizes(rows, d, 1);
    CountsAreSizes(rows, d, 20);
    CountsAreSizes(rows, d, 100);
    hide Lasting;
    hide LastingWith;
    hide AllGroups;
    hide Groups;
  }

  lemma {:induction false} ShortCountsNest(rows: seq<Sample>, d: nat)
    ensures CountShort(rows, d, 1) <= CountShort(rows, d, 20) <= CountShort(rows, d, 100) <= Count(rows, d)
  {
    if rows != [] { ShortCountsNest(rows[1..], d); }
  }

  // ---------- what the limit leaves ----------

  // Something with cycles is left for the distribution if and only if the limit is below 1.
  lemma {:induction false} SomeLeftIff(samples: seq<Sample>, limit: real)
    requires Total(WithoutTraceBegin(samples)) > 0
    ensures Total(SamplesForCdf(samples, limit)) > 0 <==> limit < 1.0
  {
    var t1 := WithoutTraceBegin(samples);
    if limit < 1.0 {
      var r := ShortestPositive(t1);
      AllCyclesFrom(t1, r.cycles);
      WholeShare(Total(t1));
      FilteredHas(t1, t1, limit, r);
      TotalAtLeast(Filtered(t1, t1, limit), r);
    } else {
      NothingLeft(t1, t1, limit);
    }
  }

  lemma {:induction false} ShortestPositive(rows: seq<Sample>) returns (r: Sample)
    requires Total(rows) > 0
    ensures r in rows && r.cycles > 0 && forall x :: x in rows && x.cycles > 0 ==> x.cycles >= r.cycles
  {
    if Total(rows[1..]) == 0 {
      r := rows[0];
      forall x | x in rows[1..] ensures x.cycles == 0 { TotalAtLeast(rows[1..], x); }
    } else {
      r := ShortestPositive(rows[1..]);
      if 0 < rows[0].cycles < r.cycles { r := rows[0]; }
    }
  }

  lemma {:induction false} TotalAtLeast(rows: seq<Sample>, r: Sample)
    requires r in rows
    ensures Total(rows) >= r.cycles
  {
    if rows[0] != r { TotalAtLeast(rows[1..], r); }
  }

  lemma {:induction false} AllCyclesFrom(rows: seq<Sample>, d: nat)
    requires forall x :: x in rows && x.cycles > 0 ==> x.cycles >= d
    ensures CyclesFrom(rows, d) == Total(rows)
  {
    if rows != [] { AllCyclesFrom(rows[1..], d); }
  }

  lemma {:induction false} CyclesFromAtMost(rows: seq<Sample>, d: nat)
    ensures CyclesFrom(rows, d) <= Total(rows)
  {
    if rows != [] { CyclesFromAtMost(rows[1..], d); }
  }

  lemma {:induction false} FilteredHas(rows: seq<Sample>, all: seq<Sample>, limit: real, r: Sample)
    requires Total(all) > 0 && r in rows && Kept(all, r.cycles, limit)
    ensures r in Filtered(rows, all, limit)
  {
    if rows[0] != r { FilteredHas(rows[1..], all, limit, r); }
  }

  lemma {:induction false} NothingLeft(rows: seq<Sample>, all: seq<Sample>, limit: real)
    requires Total(all) > 0 && limit >= 1.0
    ensures Filtered(rows, all, limit) == []
  {
    if rows != [] {
      CyclesFromAtMost(all, rows[0].cycles);
      ShareGrows(CyclesFrom(all, rows[0].cycles), Total(all), Total(all));
      WholeShare(Total(all));
      NothingLeft(rows[1..], all, limit);
    }
  }
}
