/**
 The timestamped_ranges table: samples in id order become adjacent ranges of cycles, each
 carrying running totals of cycles and instructions.
 */
module Ranges {
  import opened Options

  // One sample: instructions and cycles since the previous sample.
  datatype Sample = Sample(insns: nat, cycles: nat)

  // One row. Cycles are numbered from 1; the row owns the cycles after its start and up to
  // and including endCumCyc.
  datatype Range = Range(
    startCumInsns: Option<nat>, startCumCyc: Option<nat>,
    endCumInsns: nat, endCumCyc: nat,
    insnCount: nat, cycCount: nat)

  function TotalInsns(samples: seq<Sample>): nat {
    if samples == [] then 0 else TotalInsns(samples[..|samples| - 1]) + samples[|samples| - 1].insns
  }

  function TotalCycles(samples: seq<Sample>): nat {
    if samples == [] then 0 else TotalCycles(samples[..|samples| - 1]) + samples[|samples| - 1].cycles
  }

  // Samples without cycles and instructions are dropped.
  function Counted(samples: seq<Sample>): seq<Sample> {
    if samples == [] then []
    else
      var last := samples[|samples| - 1];
      Counted(samples[..|samples| - 1]) + (if last.insns > 0 || last.cycles > 0 then [last] else [])
  }

  // Running sums over the rows up to and including row i, and their lag by one row.
  function RowAt(t1: seq<Sample>, i: nat): Range
    requires i < |t1|
  {
    Range(
      if i == 0 then None else Some(TotalInsns(t1[..i])),
      if i == 0 then None else Some(TotalCycles(t1[..i])),
      TotalInsns(t1[..i + 1]), TotalCycles(t1[..i + 1]), t1[i].insns, t1[i].cycles)
  }

  function Rows(t1: seq<Sample>): seq<Range> {
    seq(|t1|, i requires 0 <= i < |t1| => RowAt(t1, i))
  }

  function TimestampedRanges(samples: seq<Sample>): seq<Range> {
    Rows(Counted(samples))
  }

  // ---------- what the rest of the analysis relies on ----------

  function EndCyc(rs: seq<Range>, i: int): nat
    requires -1 <= i < |rs|
  {
    if i == -1 then 0 else rs[i].endCumCyc
  }

  function EndInsns(rs: seq<Range>, i: int): nat
    requires -1 <= i < |rs|
  {
    if i == -1 then 0 else rs[i].endCumInsns
  }

  // Row i continues the row before it, and starts where that one ends.
  ghost predicate Follows(rs: seq<Range>, i: nat)
    requires i < |rs|
  {
    && rs[i].endCumCyc == EndCyc(rs, i - 1) + rs[i].cycCount
    && rs[i].endCumInsns == EndInsns(rs, i - 1) + rs[i].insnCount
    && rs[i].startCumCyc == (if i == 0 then None else Some(EndCyc(rs, i - 1)))
    && rs[i].startCumInsns == (if i == 0 then None else Some(EndInsns(rs, i - 1)))
  }

  // The ranges follow one another without gap or overlap, from cycle 1 on.
  ghost predicate Tiled(rs: seq<Range>) {
    forall i :: 0 <= i < |rs| ==> Follows(rs, i)
  }

  ghost predicate HaveCycles(rs: seq<Range>) {
    forall i :: 0 <= i < |rs| ==> rs[i].cycCount >= 1
  }

  lemma PrefixTotals(t1: seq<Sample>, i: nat)
    requires i < |t1|
    ensures TotalCycles(t1[..i + 1]) == TotalCycles(t1[..i]) + t1[i].cycles
    ensures TotalInsns(t1[..i + 1]) == TotalInsns(t1[..i]) + t1[i].insns
  {
    assert t1[..i + 1][..i] == t1[..i];
  }

  lemma RowFollows(t1: seq<Sample>, i: nat)
    requires i < |t1|
    ensures Follows(Rows(t1), i)
  {
    PrefixTotals(t1, i);
    if i == 0 {
      assert t1[..0] == [];
    } else {
      assert Rows(t1)[i - 1] == RowAt(t1, i - 1);
    }
  }

  lemma RowsTile(t1: seq<Sample>)
    ensures Tiled(Rows(t1))
    ensures EndCyc(Rows(t1), |t1| - 1) == TotalCycles(t1) && EndInsns(Rows(t1), |t1| - 1) == TotalInsns(t1)
  {
    forall i | 0 <= i < |t1|
      ensures Follows(Rows(t1), i)
    {
      RowFollows(t1, i);
    }
    LastRowHoldsTotals(t1);
  }

  lemma LastRowHoldsTotals(t1: seq<Sample>)
    ensures EndCyc(Rows(t1), |t1| - 1) == TotalCycles(t1) && EndInsns(Rows(t1), |t1| - 1) == TotalInsns(t1)
  {
    assert t1[..|t1|] == t1;
  }

  lemma {:induction false} CountedKeepsTotals(samples: seq<Sample>)
    ensures TotalCycles(Counted(samples)) == TotalCycles(samples)
    ensures TotalInsns(Counted(samples)) == TotalInsns(samples)
  {
    if samples != [] {
      var n := |samples| - 1;
      var front, last := Counted(samples[..n]), samples[n];
      CountedKeepsTotals(samples[..n]);
      if last.insns > 0 || last.cycles > 0 {
        assert Counted(samples) == front + [last];
        PrefixTotals(front + [last], |front|);
        assert (front + [last])[..|front|] == front;
      } else {
        assert Counted(samples) == front;
      }
    }
  }

  lemma {:induction false} CountedHaveCycles(samples: seq<Sample>)
    requires forall i :: 0 <= i < |samples| ==> samples[i].insns > 0 ==> samples[i].cycles > 0
    ensures forall i :: 0 <= i < |Counted(samples)| ==> Counted(samples)[i].cycles >= 1
  {
    if samples != [] {
      CountedHaveCycles(samples[..|samples| - 1]);
    }
  }

  // The table tiles the cycles of the trace: every cycle and every instruction of every
  // sample is counted once, and each row starts where the previous one ends.
  lemma {:induction false} TableTilesTrace(samples: seq<Sample>)
    ensures Tiled(TimestampedRanges(samples))
    ensures var rs := TimestampedRanges(samples);
            EndCyc(rs, |rs| - 1) == TotalCycles(samples) && EndInsns(rs, |rs| - 1) == TotalInsns(samples)
    ensures (forall i :: 0 <= i < |samples| ==> samples[i].insns > 0 ==> samples[i].cycles > 0)
            ==> HaveCycles(TimestampedRanges(samples))
  {
    RowsTile(Counted(samples));
    CountedKeepsTotals(samples);
    if forall i :: 0 <= i < |samples| ==> samples[i].insns > 0 ==> samples[i].cycles > 0 {
      CountedHaveCycles(samples);
    }
  }

  // ---------- which rows there are ----------

  // Sample i brings a row of the table.
  predicate HasRow(samples: seq<Sample>, i: int) {
    0 <= i < |samples| && (samples[i].insns > 0 || samples[i].cycles > 0)
  }

  // index lists, in order, the samples with instructions or cycles.
  ghost predicate IndexOfRows(samples: seq<Sample>, index: seq<nat>) {
    && (forall r, q :: 0 <= r < q < |index| ==> index[r] < index[q])
    && (forall i :: HasRow(samples, i) <==> i in index)
  }

  lemma {:induction false} CountedAre(samples: seq<Sample>) returns (index: seq<nat>)
    ensures IndexOfRows(samples, index) && |index| == |Counted(samples)|
    ensures forall r :: 0 <= r < |index| ==>
              && HasRow(samples, index[r]) && Counted(samples)[r] == samples[index[r]]
              && Counted(samples)[..r + 1] == Counted(samples[..index[r] + 1])
  {
    index := [];
    if samples != [] {
      var n := |samples| - 1;
      var front := CountedAre(samples[..n]);
      index := if HasRow(samples, n) then front + [n] else front;
      IndexGrows(samples, front);
      OneMoreCounted(samples);
      hide Counted;
      hide IndexOfRows;
      hide HasRow;
      forall r | 0 <= r < |index|
        ensures HasRow(samples, index[r]) && Counted(samples)[r] == samples[index[r]]
        ensures Counted(samples)[..r + 1] == Counted(samples[..index[r] + 1])
      {
        CountedAreAt(samples, front, index, r);
      }
    }
  }

  lemma OneMoreCounted(samples: seq<Sample>)
    requires samples != []
    ensures var n := |samples| - 1;
            Counted(samples) == Counted(samples[..n]) + (if HasRow(samples, n) then [samples[n]] else [])
  {
  }

  lemma IndexGrows(samples: seq<Sample>, front: seq<nat>)
    requires samples != [] && IndexOfRows(samples[..|samples| - 1], front)
    ensures var n := |samples| - 1;
            IndexOfRows(samples, if HasRow(samples, n) then front + [n] else front)
  {
    var n := |samples| - 1;
    var index := if HasRow(samples, n) then front + [n] else front;
    forall i
      ensures HasRow(samples, i) <==> i in index
    {
      assert HasRow(samples[..n], i) <==> HasRow(samples, i) && i < n;
    }
    forall r | 0 <= r < |front|
      ensures front[r] < n
    {
      assert HasRow(samples[..n], front[r]);
    }
  }

  lemma CountedAreAt(samples: seq<Sample>, front: seq<nat>, index: seq<nat>, r: nat)
    requires samples != [] && r < |index|
    requires var n := |samples| - 1;
             && index == (if HasRow(samples, n) then front + [n] else front)
             && |front| == |Counted(samples[..n])|
             && (forall q :: 0 <= q < |front| ==>
                   && HasRow(samples[..n], front[q]) && Counted(samples[..n])[q] == samples[..n][front[q]]
                   && Counted(samples[..n])[..q + 1] == Counted(samples[..n][..front[q] + 1]))
    ensures HasRow(samples, index[r]) && r < |Counted(samples)| && Counted(samples)[r] == samples[index[r]]
    ensures Counted(samples)[..r + 1] == Counted(samples[..index[r] + 1])
  {
    var n := |samples| - 1;
    var before := Counted(samples[..n]);
    OneMoreCounted(samples);
    hide Counted;
    if r < |front| {
      assert samples[..n][..front[r] + 1] == samples[..front[r] + 1];
      assert Counted(samples)[..r + 1] == before[..r + 1];
    } else {
      assert samples[..n + 1] == samples;
      assert Counted(samples)[..r + 1] == Counted(samples);
    }
  }

  // The table has one row for each sample with instructions or cycles, in the order of the
  // samples, with that sample's counts and the totals of all samples up to it.
  lemma {:induction false} RowsAreSamples(samples: seq<Sample>) returns (index: seq<nat>)
    ensures |index| == |TimestampedRanges(samples)|
    ensures forall r, q :: 0 <= r < q < |index| ==> index[r] < index[q]
    ensures forall i :: i in index <==> 0 <= i < |samples| && (samples[i].insns > 0 || samples[i].cycles > 0)
    ensures forall r :: 0 <= r < |index| ==>
              var row, i := TimestampedRanges(samples)[r], index[r];
              && i < |samples| && row.insnCount == samples[i].insns && row.cycCount == samples[i].cycles
              && row.endCumCyc == TotalCycles(samples[..i + 1]) && row.endCumInsns == TotalInsns(samples[..i + 1])
  {
    index := CountedAre(samples);
    forall i
      ensures i in index <==> 0 <= i < |samples| && (samples[i].insns > 0 || samples[i].cycles > 0)
    {
      assert HasRow(samples, i) <==> i in index;
    }
    forall r | 0 <= r < |index|
      ensures var row, i := TimestampedRanges(samples)[r], index[r];
              && i < |samples| && row.insnCount == samples[i].insns && row.cycCount == samples[i].cycles
              && row.endCumCyc == TotalCycles(samples[..i + 1]) && row.endCumInsns == TotalInsns(samples[..i + 1])
    {
      CountedKeepsTotals(samples[..index[r] + 1]);
      assert HasRow(samples, index[r]);
    }
  }
}
