/**
 The sliding window over the ranges table: for every point at which the answer can change
 shape, the instructions per cycle of the window ending there, by linear interpolation and
 with a lower and an upper bound, computed from running totals and the two edge ranges.

 Reals stand for the floating-point columns. Every range is taken to have cycles.
 */
module SlidingWindow {
  import opened Options
  import opened Ranges

  datatype Side = Leading | Trailing

  // One row of sliding_window.
  datatype Window = Window(
    isSingleRange: bool,
    windowEnd: int, windowStart: int,
    leading: Range, trailing: Range,
    side: Side,
    isSpanAliased: bool)

  // A table this analysis is meant for: ranges in order, without gap, each with cycles.
  ghost predicate Table(rs: seq<Range>) {
    Tiled(rs) && HaveCycles(rs)
  }

  // ---------- the queries ----------

  // ASOF join on "end above x": the first range, from row `from` on, whose end is above x, or
  // |rs| when there is none.
  function FirstAbove(rs: seq<Range>, x: int, from: nat): (k: nat)
    requires from <= |rs|
    ensures from <= k <= |rs|
    ensures k < |rs| ==> rs[k].endCumCyc > x
    ensures forall i :: from <= i < k ==> rs[i].endCumCyc <= x
    decreases |rs| - from
  {
    if from == |rs| || rs[from].endCumCyc > x then from else FirstAbove(rs, x, from + 1)
  }

  // Range i as the leading edge; the trailing edge is joined from the left.
  function LeadingRow(rs: seq<Range>, size: int, i: nat): Window
    requires size >= 1 && i < |rs|
  {
    var k := FirstAbove(rs, rs[i].endCumCyc - size, 0);
    assert k <= i;
    var end := rs[i].endCumCyc;
    var start := end - (size - 1);
    Window(rs[i].endCumCyc == rs[k].endCumCyc, end, start, rs[i], rs[k], Leading,
           start == rs[k].endCumCyc)
  }

  function LeadingRows(rs: seq<Range>, size: int): seq<Window>
    requires size >= 1
  {
    seq(|rs|, i requires 0 <= i < |rs| => LeadingRow(rs, size, i))
  }

  // Range j as the trailing edge; rows without a leading range are dropped by the join.
  function TrailingRow(rs: seq<Range>, size: int, j: nat): Option<Window>
    requires j < |rs|
  {
    var end := rs[j].endCumCyc + size - 1;
    var k := FirstAbove(rs, end - 1, 0);
    if k == |rs| then None
    else Some(Window(false, end, rs[j].endCumCyc, rs[k], rs[j], Trailing, end == rs[k].endCumCyc))
  }

  function TrailingRows(rs: seq<Range>, size: int, n: nat): seq<Window>
    requires n <= |rs|
  {
    if n == 0 then []
    else
      var row := TrailingRow(rs, size, n - 1);
      TrailingRows(rs, size, n - 1) + (if row.Some? then [row.value] else [])
  }

  function Windows(rs: seq<Range>, size: int): seq<Window>
    requires size >= 1
  {
    LeadingRows(rs, size) + TrailingRows(rs, size, |rs|)
  }

  function WithoutAliases(rows: seq<Window>): seq<Window> {
    if rows == [] then []
    else
      var row := rows[|rows| - 1];
      WithoutAliases(rows[..|rows| - 1]) +
        (if row.side.Trailing? && row.isSpanAliased then [] else [row])
  }

  function InsertByEnd(row: Window, rows: seq<Window>): seq<Window> {
    if rows == [] || row.windowEnd <= rows[0].windowEnd then [row] + rows
    else [rows[0]] + InsertByEnd(row, rows[1..])
  }

  function OrderByEnd(rows: seq<Window>): seq<Window> {
    if rows == [] then [] else InsertByEnd(rows[0], OrderByEnd(rows[1..]))
  }

  // The rows of ipc_spans, in window order.
  function Spans(rs: seq<Range>, size: int): seq<Window>
    requires size >= 1
  {
    OrderByEnd(WithoutAliases(Windows(rs, size)))
  }

  // The computed columns of one row.
  function TrailingCycInWindow(w: Window): int { w.trailing.endCumCyc - w.windowStart + 1 }

  function LeadingInsns(w: Window): nat { if w.isSingleRange then 0 else w.leading.insnCount }

  function LeadingCycInWindow(w: Window): int {
    if w.isSingleRange then 0 else w.leading.cycCount - (w.leading.endCumCyc - w.windowEnd)
  }

  function InteriorInsns(w: Window): int {
    if w.isSingleRange then 0
    else (w.leading.endCumInsns - w.leading.insnCount) - w.trailing.endCumInsns
  }

  function InteriorCyc(w: Window): int {
    if w.leading.endCumCyc == w.trailing.endCumCyc then 0
    else (w.leading.endCumCyc - w.leading.cycCount) - w.trailing.endCumCyc
  }

  function OptimisticIpc(w: Window, size: int): real
    requires size >= 1
  {
    (w.trailing.insnCount + LeadingInsns(w) + InteriorInsns(w)) as real / size as real
  }

  function ConservativeIpc(w: Window, size: int): real
    requires size >= 1
  {
    InteriorInsns(w) as real / size as real
  }

  function LinearIpc(w: Window, size: int): real
    requires size >= 1 && w.trailing.cycCount >= 1 && w.leading.cycCount >= 1
  {
    (w.trailing.insnCount as real * (TrailingCycInWindow(w) as real / w.trailing.cycCount as real)
     + LeadingInsns(w) as real * (LeadingCycInWindow(w) as real / w.leading.cycCount as real)
     + InteriorInsns(w) as real) / size as real
  }

  // The width of the span that ends at row k: the distance from the row before it.
  function SpanWidth(rows: seq<Window>, k: nat): int
    requires k < |rows|
  {
    if k == 0 then 0 else rows[k].windowEnd - rows[k - 1].windowEnd
  }

  // ---------- the simple form: one cycle at a time ----------

  function Total(rs: seq<Range>): nat { EndCyc(rs, |rs| - 1) }

  // The range that owns cycle c.
  function Owner(rs: seq<Range>, c: int): nat { FirstAbove(rs, c - 1, 0) }

  // Instructions of cycle c when those of each range are spread evenly over its cycles.
  function Rate(rs: seq<Range>, c: int): real {
    var i := Owner(rs, c);
    if i < |rs| && rs[i].cycCount >= 1 then rs[i].insnCount as real / rs[i].cycCount as real else 0.0
  }

  // The sum of q over the cycles lo..hi.
  function Sum(q: int -> real, lo: int, hi: int): real
    decreases hi - lo
  {
    if hi < lo then 0.0 else Sum(q, lo, hi - 1) + q(hi)
  }

  // A possible placement of the instructions onto the cycles: it agrees with every range.
  ghost predicate Placement(rs: seq<Range>, q: int -> real) {
    && (forall c :: 1 <= c <= Total(rs) ==> q(c) >= 0.0)
    && (forall i :: 0 <= i < |rs| ==> RangeSum(rs, q, i) == rs[i].insnCount as real)
  }

  function RangeSum(rs: seq<Range>, q: int -> real, i: nat): real
    requires i < |rs|
  {
    Sum(q, EndCyc(rs, i - 1) + 1, rs[i].endCumCyc)
  }

  function Spread(rs: seq<Range>): int -> real { c => Rate(rs, c) }

  // ---------- facts about the table ----------

  lemma {:induction false} EndsIncrease(rs: seq<Range>, i: int, j: int)
    requires Table(rs) && -1 <= i <= j < |rs|
    ensures EndInsns(rs, i) <= EndInsns(rs, j)
    ensures EndCyc(rs, i) + (j - i) <= EndCyc(rs, j)
    decreases j - i
  {
    if i < j {
      EndsIncrease(rs, i, j - 1);
      assert Follows(rs, j);
    }
  }

  // Range i owns exactly the cycles after the end of range i - 1 up to its own end.
  lemma OwnerIs(rs: seq<Range>, c: int, i: nat)
    requires Table(rs) && i < |rs|
    ensures Owner(rs, c) == i <==> (i == 0 || EndCyc(rs, i - 1) < c) && c <= rs[i].endCumCyc
  {
    var k := Owner(rs, c);
    if k < i {
      EndsIncrease(rs, k, i - 1);
    } else if i < k {
      EndsIncrease(rs, i, k - 1);
    }
  }

  lemma OwnersIncrease(rs: seq<Range>, c: int, d: int)
    requires Table(rs) && c <= d
    ensures Owner(rs, c) <= Owner(rs, d)
  {
  }

  // ---------- facts about sums ----------

  lemma {:induction false} SumSplits(q: int -> real, lo: int, mid: int, hi: int)
    requires lo <= mid + 1 && mid <= hi
    ensures Sum(q, lo, hi) == Sum(q, lo, mid) + Sum(q, mid + 1, hi)
    decreases hi - mid
  {
    if mid < hi {
      SumSplits(q, lo, mid, hi - 1);
    }
  }

  lemma {:induction false} SumConstant(q: int -> real, lo: int, hi: int, r: real)
    requires lo <= hi + 1 && forall c :: lo <= c <= hi ==> q(c) == r
    ensures Sum(q, lo, hi) == (hi - lo + 1) as real * r
    decreases hi - lo
  {
    if lo <= hi {
      SumConstant(q, lo, hi - 1, r);
      var n := hi - lo;
      assert (n + 1) as real * r == n as real * r + r;
    }
  }

  lemma {:induction false} SumNonnegative(q: int -> real, lo: int, hi: int)
    requires forall c :: lo <= c <= hi ==> q(c) >= 0.0
    ensures Sum(q, lo, hi) >= 0.0
    decreases hi - lo
  {
    if lo <= hi {
      SumNonnegative(q, lo, hi - 1);
    }
  }

  // Summing whole ranges gives a difference of running totals.
  lemma {:induction false} SumOfRanges(rs: seq<Range>, q: int -> real, j: int, i: int)
    requires Table(rs) && Placement(rs, q) && -1 <= j <= i < |rs|
    ensures Sum(q, EndCyc(rs, j) + 1, EndCyc(rs, i)) == (EndInsns(rs, i) - EndInsns(rs, j)) as real
    decreases i - j
  {
    hide Sum;
    if j < i {
      SumOfRanges(rs, q, j, i - 1);
      SumOfRange(rs, q, i);
      EndsIncrease(rs, j, i - 1);
      hide *;
      SumSplits(q, EndCyc(rs, j) + 1, EndCyc(rs, i - 1), EndCyc(rs, i));
    } else {
      SumNothing(q, EndCyc(rs, j));
    }
  }

  lemma SumNothing(q: int -> real, c: int)
    ensures Sum(q, c + 1, c) == 0.0
  {
  }

  lemma SumOfRange(rs: seq<Range>, q: int -> real, i: nat)
    requires Table(rs) && Placement(rs, q) && i < |rs|
    ensures Sum(q, EndCyc(rs, i - 1) + 1, EndCyc(rs, i)) == (EndInsns(rs, i) - EndInsns(rs, i - 1)) as real
    ensures EndCyc(rs, i - 1) <= EndCyc(rs, i)
  {
    hide Sum;
    assert Follows(rs, i);
    assert RangeSum(rs, q, i) == rs[i].insnCount as real;
  }

  // The even spread is itself a placement.
  lemma SpreadIsPlacement(rs: seq<Range>)
    requires Table(rs)
    ensures Placement(rs, Spread(rs))
  {
    forall i | 0 <= i < |rs|
      ensures RangeSum(rs, Spread(rs), i) == rs[i].insnCount as real
    {
      SpreadOfRange(rs, i);
    }
    forall c
      ensures Spread(rs)(c) >= 0.0
    {
      RateNonnegative(rs, c);
    }
  }

  lemma RateNonnegative(rs: seq<Range>, c: int)
    ensures Spread(rs)(c) >= 0.0
  {
  }

  lemma SpreadOfRange(rs: seq<Range>, i: nat)
    requires Table(rs) && i < |rs|
    ensures RangeSum(rs, Spread(rs), i) == rs[i].insnCount as real
  {
    OwnsCycles(rs, i);
    hide Table;
    hide Sum;
    hide Spread;
    SpreadWithinRange(rs, i, EndCyc(rs, i - 1) + 1, rs[i].endCumCyc);
    DivideAndMultiply(rs[i].insnCount as real, rs[i].cycCount as real);
  }

  lemma DivideAndMultiply(x: real, y: real)
    requires y != 0.0
    ensures y * (x / y) == x
  {
  }

  lemma SpreadWithinRange(rs: seq<Range>, i: nat, lo: int, hi: int)
    requires Table(rs) && i < |rs| && lo <= hi + 1 && hi <= rs[i].endCumCyc
    requires i == 0 || EndCyc(rs, i - 1) < lo
    ensures Sum(Spread(rs), lo, hi) == (hi - lo + 1) as real * (rs[i].insnCount as real / rs[i].cycCount as real)
  {
    hide *;
    OwnsCycles(rs, i);
    forall c | lo <= c <= hi
      ensures Spread(rs)(c) == rs[i].insnCount as real / rs[i].cycCount as real
    {
      RateInRange(rs, i, c);
    }
    SumConstant(Spread(rs), lo, hi, rs[i].insnCount as real / rs[i].cycCount as real);
  }

  lemma OwnsCycles(rs: seq<Range>, i: nat)
    requires Table(rs) && i < |rs|
    ensures rs[i].cycCount >= 1 && rs[i].endCumCyc == EndCyc(rs, i - 1) + rs[i].cycCount
  {
    assert Follows(rs, i);
  }

  lemma RateInRange(rs: seq<Range>, i: nat, c: int)
    requires Table(rs) && i < |rs| && c <= rs[i].endCumCyc && (i == 0 || EndCyc(rs, i - 1) < c)
    ensures Spread(rs)(c) == rs[i].insnCount as real / rs[i].cycCount as real
  {
    OwnerIs(rs, c, i);
    hide Owner;
  }
}
