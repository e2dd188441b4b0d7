/**
 The rows of ipc_spans as a whole: their window ends are exactly the points at which the
 window's edges change, and between two of them the answer is a straight line that stays
 within the bounds of the row.
 */
module ChangePoints {
  import opened Options
  import opened Ranges
  import opened SlidingWindow
  import opened IpcBounds

  ghost predicate IsEnd(rs: seq<Range>, x: int) {
    exists i :: 0 <= i < |rs| && rs[i].endCumCyc == x
  }

  ghost predicate Emitted(rows: seq<Window>, e: int) {
    exists k :: 0 <= k < |rows| && rows[k].windowEnd == e
  }

  ghost predicate StrictlyOrdered(rows: seq<Window>) {
    forall a, b :: 0 <= a < b < |rows| ==> rows[a].windowEnd < rows[b].windowEnd
  }

  ghost predicate DistinctEnds(rows: seq<Window>) {
    forall a, b :: 0 <= a < b < |rows| ==> rows[a].windowEnd != rows[b].windowEnd
  }

  predicate Aliased(w: Window) { w.side.Trailing? && w.isSpanAliased }

  // ---------- the filter and the order ----------

  lemma {:induction false} FilterConcat(a: seq<Window>, b: seq<Window>)
    ensures WithoutAliases(a + b) == WithoutAliases(a) + WithoutAliases(b)
  {
    if b == [] {
      assert a + b == a;
    } else {
      FilterConcat(a, b[..|b| - 1]);
      assert (a + b)[..|a + b| - 1] == a + b[..|b| - 1];
    }
  }

  lemma {:induction false} FilterKeeps(rows: seq<Window>)
    requires forall w :: w in rows ==> !Aliased(w)
    ensures WithoutAliases(rows) == rows
  {
    if rows != [] {
      assert rows[|rows| - 1] in rows;
      FilterKeeps(rows[..|rows| - 1]);
      assert rows == rows[..|rows| - 1] + [rows[|rows| - 1]];
    }
  }

  lemma {:induction false} FilterMembers(rows: seq<Window>, w: Window)
    ensures w in WithoutAliases(rows) <==> w in rows && !Aliased(w)
  {
    if rows != [] {
      FilterMembers(rows[..|rows| - 1], w);
      assert rows == rows[..|rows| - 1] + [rows[|rows| - 1]];
    }
  }

  lemma {:induction false} InsertMembers(row: Window, rows: seq<Window>)
    ensures forall w :: w in InsertByEnd(row, rows) <==> w == row || w in rows
  {
    if rows != [] && rows[0].windowEnd < row.windowEnd {
      InsertMembers(row, rows[1..]);
      assert rows == [rows[0]] + rows[1..];
    }
  }

  lemma {:induction false} InsertOrdered(row: Window, rows: seq<Window>)
    requires StrictlyOrdered(rows) && forall w :: w in rows ==> w.windowEnd != row.windowEnd
    ensures StrictlyOrdered(InsertByEnd(row, rows))
  {
    if rows != [] && rows[0].windowEnd < row.windowEnd {
      InsertOrdered(row, rows[1..]);
      InsertMembers(row, rows[1..]);
      var tail := InsertByEnd(row, rows[1..]);
      forall k | 0 <= k < |tail|
        ensures rows[0].windowEnd < tail[k].windowEnd
      {
        assert tail[k] in tail;
      }
    }
  }

  // Ordering changes nothing but the order.
  lemma {:induction false} OrderIsOrdered(rows: seq<Window>)
    requires DistinctEnds(rows)
    ensures StrictlyOrdered(OrderByEnd(rows))
    ensures forall w :: w in OrderByEnd(rows) <==> w in rows
  {
    if rows != [] {
      assert forall k :: 0 <= k < |rows[1..]| ==> rows[1..][k] == rows[k + 1];
      OrderIsOrdered(rows[1..]);
      InsertOrdered(rows[0], OrderByEnd(rows[1..]));
      InsertMembers(rows[0], OrderByEnd(rows[1..]));
      assert rows == [rows[0]] + rows[1..];
    }
  }

  // ---------- the rows before ordering ----------

  lemma LeadingRowIsWindow(rs: seq<Range>, size: int, i: nat)
    requires Table(rs) && size >= 1 && i < |rs|
    ensures var w := LeadingRow(rs, size, i); WindowAt(rs, size, w, i, Owner(rs, w.windowStart))
  {
    var w := LeadingRow(rs, size, i);
    var j := Owner(rs, w.windowStart);
    EndsIncrease(rs, -1, i - 1);
    EndsIncrease(rs, i, |rs| - 1);
    assert Follows(rs, i);
    OwnerIs(rs, w.windowEnd, i);
    OwnersIncrease(rs, w.windowStart, w.windowEnd);
    EndsIncrease(rs, j, i);
  }

  lemma TrailingRowIsWindow(rs: seq<Range>, size: int, j: nat)
    requires Table(rs) && size >= 1 && j < |rs| && TrailingRow(rs, size, j).Some?
    requires !Aliased(TrailingRow(rs, size, j).value)
    ensures var w := TrailingRow(rs, size, j).value; WindowAt(rs, size, w, Owner(rs, w.windowEnd), j)
    ensures !IsEnd(rs, TrailingRow(rs, size, j).value.windowEnd)
  {
    var w := TrailingRow(rs, size, j).value;
    var k := Owner(rs, w.windowEnd);
    EndsIncrease(rs, -1, j - 1);
    assert Follows(rs, j);
    OwnerIs(rs, w.windowStart, j);
    OwnerIs(rs, w.windowEnd, k);
    EndsIncrease(rs, k, |rs| - 1);
    forall i | 0 <= i < |rs|
      ensures rs[i].endCumCyc != w.windowEnd
    {
      if k < i { EndsIncrease(rs, k, i); }
    }
  }

  // What holds of a trailing row that survives the filter.
  ghost predicate Kept(rs: seq<Range>, size: int, w: Window) {
    && size >= 1
    && !IsEnd(rs, w.windowEnd)
    && WindowAt(rs, size, w, Owner(rs, w.windowEnd), Owner(rs, w.windowStart))
  }

  // The trailing rows of the first n ranges that survive the filter, in order.
  ghost predicate KeptRows(rs: seq<Range>, size: int, n: nat, kept: seq<Window>)
    requires n <= |rs|
  {
    && StrictlyOrdered(kept)
    && (forall w :: w in kept ==> w.windowEnd < EndCyc(rs, n - 1) + size && Kept(rs, size, w))
    && (forall j :: 0 <= j < n && TrailingRow(rs, size, j).Some? && !Aliased(TrailingRow(rs, size, j).value)
          ==> TrailingRow(rs, size, j).value in kept)
  }

  lemma KeptRowIsNew(rs: seq<Range>, size: int, n: nat, kept: seq<Window>)
    requires Table(rs) && size >= 1 && 0 < n <= |rs| && KeptRows(rs, size, n - 1, kept)
    requires TrailingRow(rs, size, n - 1).Some? && !Aliased(TrailingRow(rs, size, n - 1).value)
    ensures KeptRows(rs, size, n, kept + [TrailingRow(rs, size, n - 1).value])
  {
    var w := TrailingRow(rs, size, n - 1).value;
    TrailingRowIsWindow(rs, size, n - 1);
    EndsIncrease(rs, -1, n - 2);
    assert Follows(rs, n - 1);
    OwnerIs(rs, w.windowStart, n - 1);
    hide Owner;
    hide WindowAt;
    forall a | 0 <= a < |kept|
      ensures kept[a].windowEnd < w.windowEnd
    {
      assert kept[a] in kept;
    }
  }

  lemma KeptRowsWithoutNew(rs: seq<Range>, size: int, n: nat, kept: seq<Window>)
    requires Table(rs) && size >= 1 && 0 < n <= |rs| && KeptRows(rs, size, n - 1, kept)
    requires TrailingRow(rs, size, n - 1).Some? ==> Aliased(TrailingRow(rs, size, n - 1).value)
    ensures KeptRows(rs, size, n, kept)
  {
    EndsIncrease(rs, n - 2, n - 1);
  }

  lemma {:induction false} TrailingRowsAre(rs: seq<Range>, size: int, n: nat)
    requires Table(rs) && size >= 1 && n <= |rs|
    ensures KeptRows(rs, size, n, WithoutAliases(TrailingRows(rs, size, n)))
  {
    hide *;
    if n > 0 {
      TrailingRowsAre(rs, size, n - 1);
      var before := TrailingRows(rs, size, n - 1);
      var row := TrailingRow(rs, size, n - 1);
      var added := if row.Some? then [row.value] else [];
      OneMoreTrailingRow(rs, size, n);
      FilterConcat(before, added);
      if row.None? {
        assert before + [] == before;
        KeptRowsWithoutNew(rs, size, n, WithoutAliases(before));
      } else {
        FilterOne(row.value);
        if Aliased(row.value) {
          KeptRowsWithoutNew(rs, size, n, WithoutAliases(before));
          assert WithoutAliases(before) + [] == WithoutAliases(before);
        } else {
          KeptRowIsNew(rs, size, n, WithoutAliases(before));
        }
      }
    } else {
      NoTrailingRows(rs, size);
    }
  }

  lemma OneMoreTrailingRow(rs: seq<Range>, size: int, n: nat)
    requires 0 < n <= |rs|
    ensures var row := TrailingRow(rs, size, n - 1);
            TrailingRows(rs, size, n) == TrailingRows(rs, size, n - 1) + if row.Some? then [row.value] else []
  {
  }

  lemma NoTrailingRows(rs: seq<Range>, size: int)
    ensures KeptRows(rs, size, 0, WithoutAliases(TrailingRows(rs, size, 0)))
  {
    assert WithoutAliases([]) == [];
  }

  lemma FilterOne(w: Window)
    ensures WithoutAliases([w]) == if Aliased(w) then [] else [w]
  {
    assert [w][..0] == [];
  }

  lemma LeadingRowsAre(rs: seq<Range>, size: int)
    requires Table(rs) && size >= 1
    ensures WithoutAliases(LeadingRows(rs, size)) == LeadingRows(rs, size)
    ensures StrictlyOrdered(LeadingRows(rs, size))
  {
    FilterKeeps(LeadingRows(rs, size));
    forall a, b | 0 <= a < b < |rs|
      ensures rs[a].endCumCyc < rs[b].endCumCyc
    {
      EndsIncrease(rs, a, b);
    }
  }

  // After the alias filter no window end occurs twice.
  lemma KeptRowsAreDistinct(rs: seq<Range>, size: int)
    requires Table(rs) && size >= 1
    ensures WithoutAliases(Windows(rs, size))
         == LeadingRows(rs, size) + WithoutAliases(TrailingRows(rs, size, |rs|))
    ensures DistinctEnds(WithoutAliases(Windows(rs, size)))
  {
    var leading, trailing := LeadingRows(rs, size), TrailingRows(rs, size, |rs|);
    var kept := WithoutAliases(trailing);
    FilterConcat(leading, trailing);
    LeadingRowsAre(rs, size);
    TrailingRowsAre(rs, size, |rs|);
    forall a, b | 0 <= a < |leading| && 0 <= b < |kept|
      ensures leading[a].windowEnd != kept[b].windowEnd
    {
      assert kept[b] in kept && leading[a].windowEnd == rs[a].endCumCyc;
    }
  }

  // ---------- the rows of ipc_spans ----------

  lemma SpansAreKeptRows(rs: seq<Range>, size: int)
    requires Table(rs) && size >= 1
    ensures StrictlyOrdered(Spans(rs, size))
    ensures forall w :: w in Spans(rs, size) <==>
              w in LeadingRows(rs, size) || w in WithoutAliases(TrailingRows(rs, size, |rs|))
  {
    KeptRowsAreDistinct(rs, size);
    OrderIsOrdered(WithoutAliases(Windows(rs, size)));
  }

  lemma EveryRowIsAWindow(rs: seq<Range>, size: int, w: Window)
    requires Table(rs) && size >= 1 && w in Spans(rs, size)
    ensures WindowAt(rs, size, w, Owner(rs, w.windowEnd), Owner(rs, w.windowStart))
  {
    SpansAreKeptRows(rs, size);
    TrailingRowsAre(rs, size, |rs|);
    if w in LeadingRows(rs, size) {
      var i :| 0 <= i < |rs| && w == LeadingRow(rs, size, i);
      LeadingRowIsWindow(rs, size, i);
    }
  }

  // A window end is emitted exactly when a range ends at the last cycle of the window or at
  // its first one: those are the points after which an edge of the window changes.
  lemma EndsAreChangePoints(rs: seq<Range>, size: int, e: int)
    requires Table(rs) && size >= 1
    ensures Emitted(Spans(rs, size), e) <==> e <= Total(rs) && (IsEnd(rs, e) || IsEnd(rs, e - size + 1))
  {
    var rows := Spans(rs, size);
    SpansAreKeptRows(rs, size);
    TrailingRowsAre(rs, size, |rs|);
    if Emitted(rows, e) {
      var k :| 0 <= k < |rows| && rows[k].windowEnd == e;
      assert rows[k] in rows;
      EveryRowIsAWindow(rs, size, rows[k]);
      EmittedIsChange(rs, size, rows[k]);
    }
    if e <= Total(rs) && (IsEnd(rs, e) || IsEnd(rs, e - size + 1)) {
      ChangeIsEmitted(rs, size, e);
    }
  }

  lemma {:induction false} TrailingRowsComeFrom(rs: seq<Range>, size: int, n: nat, w: Window)
    requires n <= |rs| && w in TrailingRows(rs, size, n)
    ensures exists j :: 0 <= j < n && TrailingRow(rs, size, j) == Some(w)
  {
    if w in TrailingRows(rs, size, n - 1) {
      TrailingRowsComeFrom(rs, size, n - 1, w);
    } else {
      assert TrailingRow(rs, size, n - 1) == Some(w);
    }
  }

  lemma EmittedIsChange(rs: seq<Range>, size: int, w: Window)
    requires Table(rs) && size >= 1 && w in Spans(rs, size)
    ensures IsEnd(rs, w.windowEnd) || IsEnd(rs, w.windowEnd - size + 1)
  {
    SpansAreKeptRows(rs, size);
    if w in LeadingRows(rs, size) {
      var i :| 0 <= i < |rs| && w == LeadingRow(rs, size, i);
      assert rs[i].endCumCyc == w.windowEnd;
    } else {
      FilterMembers(TrailingRows(rs, size, |rs|), w);
      TrailingRowsComeFrom(rs, size, |rs|, w);
      var j :| 0 <= j < |rs| && TrailingRow(rs, size, j) == Some(w);
      assert rs[j].endCumCyc == w.windowEnd - size + 1;
    }
  }

  lemma ChangeIsEmitted(rs: seq<Range>, size: int, e: int)
    requires Table(rs) && size >= 1 && e <= Total(rs) && (IsEnd(rs, e) || IsEnd(rs, e - size + 1))
    ensures Emitted(Spans(rs, size), e)
  {
    var rows := Spans(rs, size);
    SpansAreKeptRows(rs, size);
    TrailingRowsAre(rs, size, |rs|);
    var w: Window;
    if IsEnd(rs, e) {
      var i :| 0 <= i < |rs| && rs[i].endCumCyc == e;
      w := LeadingRow(rs, size, i);
      assert LeadingRows(rs, size)[i] == w;
    } else {
      var j :| 0 <= j < |rs| && rs[j].endCumCyc == e - size + 1;
      assert TrailingRow(rs, size, j).Some?;
      w := TrailingRow(rs, size, j).value;
      assert !Aliased(w);
    }
    assert w in rows && w.windowEnd == e;
    var k :| 0 <= k < |rows| && rows[k] == w;
  }

  // ---------- between two change points ----------

  // The window end before row k, or 0.
  function Previous(rows: seq<Window>, k: nat): int
    requires k < |rows|
  {
    if k == 0 then 0 else rows[k - 1].windowEnd
  }

  // The first end at or above c is IsEnd, and no end lies between c and it.
  lemma SameOwnerUnlessEnd(rs: seq<Range>, c: int, d: int)
    requires Table(rs) && |rs| > 0 && c <= d <= Total(rs)
    requires forall y :: c <= y < d ==> !IsEnd(rs, y)
    ensures Owner(rs, c) == Owner(rs, d)
  {
    var i := Owner(rs, c);
    OwnersIncrease(rs, c, d);
    if i < Owner(rs, d) {
      assert rs[i].endCumCyc < d;
      assert IsEnd(rs, rs[i].endCumCyc);
    }
  }

  // No edge of the window changes after the window that ends at y.
  ghost predicate Quiet(rs: seq<Range>, size: int, y: int) {
    !IsEnd(rs, y) && !IsEnd(rs, y - size + 1)
  }

  // Row w is the one that describes the windows ending at x: the first row at or after x.
  ghost predicate Describes(rs: seq<Range>, size: int, k: nat, w: Window, x: int) {
    var rows := Spans(rs, if size >= 1 then size else 1);
    size >= 1 && k < |rows| && rows[k] == w && Previous(rows, k) < x <= w.windowEnd
  }

  lemma DescribingRow(rs: seq<Range>, size: int, k: nat, w: Window, x: int)
    requires Table(rs) && Describes(rs, size, k, w, x)
    ensures WindowAt(rs, size, w, Owner(rs, w.windowEnd), Owner(rs, w.windowStart))
    ensures x >= 1
  {
    var rows := Spans(rs, size);
    assert w in rows;
    EveryRowIsAWindow(rs, size, w);
    if k > 0 {
      assert rows[k - 1] in rows;
      EveryRowIsAWindow(rs, size, rows[k - 1]);
    }
  }

  lemma QuietInside(rs: seq<Range>, size: int, k: nat, w: Window, x: int, y: int)
    requires Table(rs) && Describes(rs, size, k, w, x) && x <= y < w.windowEnd
    ensures Quiet(rs, size, y)
  {
    var rows := Spans(rs, size);
    SpansAreKeptRows(rs, size);
    DescribingRow(rs, size, k, w, x);
    EndsAreChangePoints(rs, size, y);
    assert !Emitted(rows, y);
  }

  // For every window end after the previous row and up to this one, the two edges are the
  // edges of this row.
  lemma SpanHasFixedEdges(rs: seq<Range>, size: int, k: nat, w: Window, x: int)
    requires Table(rs) && Describes(rs, size, k, w, x)
    ensures Covers(rs, size, x, Owner(rs, w.windowEnd), Owner(rs, w.windowStart))
  {
    DescribingRow(rs, size, k, w, x);
    forall y | x <= y < w.windowEnd
      ensures !IsEnd(rs, y)
    {
      QuietInside(rs, size, k, w, x, y);
    }
    forall y | x - size + 1 <= y < w.windowStart
      ensures !IsEnd(rs, y)
    {
      QuietInside(rs, size, k, w, x, y + size - 1);
    }
    SameOwnerUnlessEnd(rs, x, w.windowEnd);
    SameOwnerUnlessEnd(rs, x - size + 1, w.windowStart);
  }

  function EdgeRate(r: Range): real {
    if r.cycCount >= 1 then r.insnCount as real / r.cycCount as real else 0.0
  }

  // The change of the interpolated instruction count per cycle the window end moves.
  function Slope(w: Window): real { EdgeRate(w.leading) - EdgeRate(w.trailing) }

  lemma {:induction false} SumShifts(q: int -> real, lo: int, hi: int)
    requires lo <= hi
    ensures Sum(q, lo + 1, hi + 1) == Sum(q, lo, hi) - q(lo) + q(hi + 1)
  {
    SumSplits(q, lo, lo, hi);
    assert Sum(q, lo, lo - 1) == 0.0;
  }

  lemma OneShift(rs: seq<Range>, size: int, w: Window, i: nat, j: nat, x: int)
    requires Table(rs) && HasEdges(rs, w, i, j) && size >= 1
    requires Covers(rs, size, x, i, j) && Covers(rs, size, x + 1, i, j)
    ensures Sum(Spread(rs), x + 1 - size + 1, x + 1) == Sum(Spread(rs), x - size + 1, x) + Slope(w)
  {
    hide Sum;
    SumShifts(Spread(rs), x - size + 1, x);
    assert Spread(rs)(x + 1) - Spread(rs)(x - size + 1) == Slope(w);
  }

  // Sliding the window over fixed edges changes the per-cycle sum at a constant rate.
  lemma {:induction false} SumIsAffine(rs: seq<Range>, size: int, w: Window, i: nat, j: nat, x: int)
    requires Table(rs) && HasEdges(rs, w, i, j) && x <= w.windowEnd && size >= 1
    requires forall y :: x <= y <= w.windowEnd ==> Covers(rs, size, y, i, j)
    ensures Sum(Spread(rs), w.windowEnd - size + 1, w.windowEnd)
         == Sum(Spread(rs), x - size + 1, x) + (w.windowEnd - x) as real * Slope(w)
    decreases w.windowEnd - x
  {
    hide *;
    if x < w.windowEnd {
      SumIsAffine(rs, size, w, i, j, x + 1);
      assert Covers(rs, size, x + 1, i, j) && Covers(rs, size, x, i, j);
      OneShift(rs, size, w, i, j, x);
      var n, slope := w.windowEnd - x, Slope(w);
      assert w.windowEnd - (x + 1) == n - 1;
      assert Sum(Spread(rs), w.windowEnd - size + 1, w.windowEnd)
          == Sum(Spread(rs), x + 1 - size + 1, x + 1) + (n - 1) as real * slope;
      Step(n, slope);
    } else {
      assert (w.windowEnd - x) as real * Slope(w) == 0.0;
    }
  }

  lemma Step(n: int, r: real)
    ensures n as real * r == (n - 1) as real * r + r
  {
  }

  // The excess of a window that starts before cycle 1 is what Spread assigns to those cycles.
  lemma LinearIsUnclippedSum(rs: seq<Range>, size: int, w: Window, i: nat, j: nat)
    requires Table(rs) && WindowAt(rs, size, w, i, j)
    ensures size as real * LinearIpc(w, size) == Sum(Spread(rs), w.windowStart, w.windowEnd)
  {
    hide LinearIpc;
    hide Spread;
    hide Owner;
    LinearIsPerCycleSum(rs, size, w, i, j);
    if w.windowStart < 1 {
      assert Follows(rs, 0);
      SpreadWithinRange(rs, 0, w.windowStart, 0);
      SumSplits(Spread(rs), w.windowStart, 0, w.windowEnd);
    }
  }

  // Over the whole span that ends at row k, the interpolated value is a straight line: the
  // window ending at x has the row's value less the slope times the distance to the row.
  lemma SpanIsAffine(rs: seq<Range>, size: int, k: nat, w: Window, x: int)
    requires Table(rs) && Describes(rs, size, k, w, x)
    ensures w.leading.cycCount >= 1 && w.trailing.cycCount >= 1
    ensures Sum(Spread(rs), x - size + 1, x)
         == size as real * LinearIpc(w, size) - (w.windowEnd - x) as real * Slope(w)
  {
    var i, j := Owner(rs, w.windowEnd), Owner(rs, w.windowStart);
    DescribingRow(rs, size, k, w, x);
    hide Sum;
    hide LinearIpc;
    hide Slope;
    hide Tiled;
    forall y | x <= y <= w.windowEnd
      ensures Covers(rs, size, y, i, j)
    {
      assert Describes(rs, size, k, w, y);
      SpanHasFixedEdges(rs, size, k, w, y);
    }
    LinearIsUnclippedSum(rs, size, w, i, j);
    SumIsAffine(rs, size, w, i, j, x);
  }

  // Over the whole span, the row's bounds hold for every placement of the instructions.
  lemma SpanStaysWithinBounds(rs: seq<Range>, size: int, k: nat, w: Window, x: int, q: int -> real)
    requires Table(rs) && Describes(rs, size, k, w, x) && Placement(rs, q)
    ensures size as real * ConservativeIpc(w, size)
         <= Sum(q, Clip(x - size + 1), x)
         <= size as real * OptimisticIpc(w, size)
  {
    DescribingRow(rs, size, k, w, x);
    SpanHasFixedEdges(rs, size, k, w, x);
    BoundsHold(rs, size, w, Owner(rs, w.windowEnd), Owner(rs, w.windowStart), q, x);
  }

  lemma {:induction false} FirstRowFrom(rows: seq<Window>, x: int, n: nat) returns (k: nat)
    requires n < |rows| && x <= rows[n].windowEnd && StrictlyOrdered(rows)
    ensures k <= n && x <= rows[k].windowEnd && (k == 0 || rows[k - 1].windowEnd < x)
  {
    if n == 0 || rows[n - 1].windowEnd < x {
      k := n;
    } else {
      k := FirstRowFrom(rows, x, n - 1);
    }
  }

  // The spans tile the trace: every cycle at which a window can end lies in the span of
  // exactly one row. The width column reaches back to that cycle for every row but the first,
  // whose width is given as 0.
  lemma {:induction false} SpansTileTrace(rs: seq<Range>, size: int, x: int) returns (k: nat)
    requires Table(rs) && size >= 1 && 1 <= x <= Total(rs)
    ensures k < |Spans(rs, size)| && Describes(rs, size, k, Spans(rs, size)[k], x)
    ensures forall m, w :: Describes(rs, size, m, w, x) ==> m == k
    ensures Spans(rs, size)[k].windowEnd - SpanWidth(Spans(rs, size), k) < x <==> k > 0
  {
    var rows := Spans(rs, size);
    SpansAreKeptRows(rs, size);
    hide Spans;
    assert IsEnd(rs, Total(rs)) by { TotalIsEnd(rs); }
    EndsAreChangePoints(rs, size, Total(rs));
    var n :| 0 <= n < |rows| && rows[n].windowEnd == Total(rs);
    k := FirstRowFrom(rows, x, n);
  }

  // The span of a row but the first reaches exactly as far back as its width says; the first
  // row's width is 0.
  lemma {:induction false} WidthIsSpan(rs: seq<Range>, size: int, k: nat, x: int)
    requires Table(rs) && size >= 1 && k < |Spans(rs, size)|
    ensures var rows := Spans(rs, size);
            if k == 0 then SpanWidth(rows, k) == 0
            else Describes(rs, size, k, rows[k], x) <==> rows[k].windowEnd - SpanWidth(rows, k) < x <= rows[k].windowEnd
  {
    hide Spans;
  }

  lemma TotalIsEnd(rs: seq<Range>)
    requires Table(rs) && Total(rs) >= 1
    ensures IsEnd(rs, Total(rs))
  {
    assert rs[|rs| - 1].endCumCyc == Total(rs);
  }

  // The bound is really exceeded: one sample of 10 instructions in a single cycle and a window
  // of five cycles, four of them before the trace.
  lemma {:induction false} EarlyRowExceedsBound() returns (w: Window)
    ensures Table(TimestampedRanges([Sample(10, 1)])) && w in Spans(TimestampedRanges([Sample(10, 1)]), 5)
    ensures w.leading.cycCount == w.trailing.cycCount == 1
    ensures LinearIpc(w, 5) == 10.0 && OptimisticIpc(w, 5) == 2.0
  {
    var samples := [Sample(10, 1)];
    var rs := TimestampedRanges(samples);
    assert samples[..0] == [] && samples[..1] == samples && Counted(samples[..0]) == [];
    assert Counted(samples) == [] + samples;
    assert rs == [Range(None, None, 10, 1, 10, 1)];
    TableTilesTrace(samples);
    w := LeadingRow(rs, 5, 0);
    assert w == LeadingRows(rs, 5)[0];
    SpansAreKeptRows(rs, 5);
  }
}
