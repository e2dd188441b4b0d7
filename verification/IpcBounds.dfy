/**
 What the columns of one ipc_spans row mean: the interpolated value is the per-cycle sum,
 and the conservative and optimistic values bound every possible placement of the
 instructions onto the cycles.
 */
module IpcBounds {
  import opened Ranges
  import opened SlidingWindow

  // Row w describes windows whose last cycle is owned by range i and first one by range j.
  ghost predicate HasEdges(rs: seq<Range>, w: Window, i: nat, j: nat) {
    && i < |rs| && j < |rs|
    && w.leading == rs[i] && w.trailing == rs[j]
    && w.isSingleRange == (i == j)
  }

  // The window of the given size that ends at cycle x lies over those edges.
  ghost predicate Covers(rs: seq<Range>, size: int, x: int, i: nat, j: nat) {
    && size >= 1 && 1 <= x <= Total(rs)
    && Owner(rs, x) == i && Owner(rs, x - size + 1) == j
  }

  // What every row of ipc_spans satisfies (EveryRowIsAWindow in ChangePoints).
  ghost predicate WindowAt(rs: seq<Range>, size: int, w: Window, i: nat, j: nat) {
    && HasEdges(rs, w, i, j)
    && Covers(rs, size, w.windowEnd, i, j)
    && w.windowStart == w.windowEnd - size + 1
    && (w.isSingleRange ==> w.windowEnd == w.leading.endCumCyc)
  }

  // The first cycle of a window that exists: a window may begin before cycle 1.
  function Clip(start: int): int { if start < 1 then 1 else start }

  // ---------- the edges of a window ----------

  lemma Edges(rs: seq<Range>, size: int, x: int, i: nat, j: nat)
    requires Table(rs) && Covers(rs, size, x, i, j) && |rs| > 0
    ensures j <= i < |rs|
    ensures EndCyc(rs, i - 1) < x <= EndCyc(rs, i)
    ensures EndCyc(rs, j - 1) < Clip(x - size + 1) <= EndCyc(rs, j)
    ensures x - size + 1 >= 1 ==> EndCyc(rs, j - 1) < x - size + 1
    ensures x - size + 1 < 1 ==> j == 0
    ensures i != j ==> EndCyc(rs, j) <= EndCyc(rs, i - 1)
    ensures Follows(rs, i) && Follows(rs, j)
  {
    var ws := x - size + 1;
    OwnersIncrease(rs, ws, x);
    OwnerIs(rs, x, i);
    OwnerIs(rs, ws, j);
    assert Follows(rs, i) && Follows(rs, j);
    assert Follows(rs, 0);
    if ws < 1 { OwnerIs(rs, ws, 0); }
    if i != j { EndsIncrease(rs, j, i - 1); }
  }

  // Leading, interior and trailing cycles are nonnegative and add up to the window size.
  lemma CellsAddUp(rs: seq<Range>, size: int, w: Window, i: nat, j: nat)
    requires Table(rs) && WindowAt(rs, size, w, i, j)
    ensures LeadingCycInWindow(w) + InteriorCyc(w) + TrailingCycInWindow(w) == size
    ensures 0 <= LeadingCycInWindow(w) <= w.leading.cycCount
    ensures InteriorCyc(w) >= 0 && TrailingCycInWindow(w) >= 1
    ensures w.windowStart >= 1 ==> TrailingCycInWindow(w) <= w.trailing.cycCount
  {
    Edges(rs, size, w.windowEnd, i, j);
    if i != j { EndsIncrease(rs, j, i); }
  }

  lemma InteriorIsDifference(rs: seq<Range>, w: Window, i: nat, j: nat)
    requires Table(rs) && HasEdges(rs, w, i, j) && j < i
    ensures InteriorInsns(w) == EndInsns(rs, i - 1) - EndInsns(rs, j) >= 0
  {
    assert Follows(rs, i);
    EndsIncrease(rs, j, i - 1);
  }

  // ---------- splitting a window ----------

  // The instructions of the window ending at x under q: those of its two partial ranges and
  // all of those between.
  lemma WindowSplits(rs: seq<Range>, size: int, w: Window, i: nat, j: nat, q: int -> real, x: int)
    requires Table(rs) && HasEdges(rs, w, i, j) && Covers(rs, size, x, i, j) && Placement(rs, q)
    requires i != j
    ensures Sum(q, Clip(x - size + 1), x)
         == Sum(q, Clip(x - size + 1), EndCyc(rs, j)) + InteriorInsns(w) as real + Sum(q, EndCyc(rs, i - 1) + 1, x)
  {
    hide Sum;
    hide Placement;
    Edges(rs, size, x, i, j);
    InteriorIsDifference(rs, w, i, j);
    SumOfRanges(rs, q, j, i - 1);
    SumSplits(q, Clip(x - size + 1), EndCyc(rs, j), x);
    SumSplits(q, EndCyc(rs, j) + 1, EndCyc(rs, i - 1), x);
  }

  lemma SumOfPart(q: int -> real, first: int, lo: int, hi: int, last: int)
    requires first <= lo <= hi + 1 && hi <= last
    requires forall c :: first <= c <= last ==> q(c) >= 0.0
    ensures 0.0 <= Sum(q, lo, hi) <= Sum(q, first, last)
  {
    SumSplits(q, first, lo - 1, last);
    SumSplits(q, lo, hi, last);
    SumNonnegative(q, first, lo - 1);
    SumNonnegative(q, lo, hi);
    SumNonnegative(q, hi + 1, last);
  }

  // Part of a range holds between none and all of its instructions.
  lemma PartOfRange(rs: seq<Range>, q: int -> real, i: nat, lo: int, hi: int)
    requires Table(rs) && Placement(rs, q) && i < |rs|
    requires EndCyc(rs, i - 1) < lo <= hi + 1 && hi <= EndCyc(rs, i)
    ensures 0.0 <= Sum(q, lo, hi) <= rs[i].insnCount as real
  {
    PlacedInRange(rs, q, i);
    hide Sum;
    hide Placement;
    hide Tiled;
    SumOfPart(q, EndCyc(rs, i - 1) + 1, lo, hi, rs[i].endCumCyc);
  }

  lemma PlacedInRange(rs: seq<Range>, q: int -> real, i: nat)
    requires Table(rs) && Placement(rs, q) && i < |rs|
    ensures forall c :: EndCyc(rs, i - 1) + 1 <= c <= rs[i].endCumCyc ==> q(c) >= 0.0
    ensures Sum(q, EndCyc(rs, i - 1) + 1, rs[i].endCumCyc) == rs[i].insnCount as real
  {
    hide Sum;
    EndsIncrease(rs, -1, i - 1);
    EndsIncrease(rs, i, |rs| - 1);
    assert RangeSum(rs, q, i) == rs[i].insnCount as real;
  }

  // ---------- the bounds ----------

  lemma TimesSize(x: real, size: int)
    requires size >= 1
    ensures size as real * (x / size as real) == x
  {
  }

  lemma BoundColumns(w: Window, size: int)
    requires size >= 1
    ensures size as real * ConservativeIpc(w, size) == InteriorInsns(w) as real
    ensures size as real * OptimisticIpc(w, size)
         == w.trailing.insnCount as real + LeadingInsns(w) as real + InteriorInsns(w) as real
  {
    TimesSize(InteriorInsns(w) as real, size);
    TimesSize((w.trailing.insnCount + LeadingInsns(w) + InteriorInsns(w)) as real, size);
  }

  lemma WindowBetween(rs: seq<Range>, size: int, w: Window, i: nat, j: nat, q: int -> real, x: int)
    requires Table(rs) && HasEdges(rs, w, i, j) && Covers(rs, size, x, i, j) && Placement(rs, q)
    ensures InteriorInsns(w) as real
         <= Sum(q, Clip(x - size + 1), x)
         <= w.trailing.insnCount as real + LeadingInsns(w) as real + InteriorInsns(w) as real
  {
    Edges(rs, size, x, i, j);
    if i == j {
      PartOfRange(rs, q, i, Clip(x - size + 1), x);
    } else {
      WindowSplits(rs, size, w, i, j, q, x);
      PartOfRange(rs, q, j, Clip(x - size + 1), EndCyc(rs, j));
      PartOfRange(rs, q, i, EndCyc(rs, i - 1) + 1, x);
    }
  }

  // For every placement of the instructions onto the cycles, and for every window over the
  // row's edges, the instructions in the window lie between the two bounds of the row.
  lemma BoundsHold(rs: seq<Range>, size: int, w: Window, i: nat, j: nat, q: int -> real, x: int)
    requires Table(rs) && HasEdges(rs, w, i, j) && Covers(rs, size, x, i, j) && Placement(rs, q)
    ensures size as real * ConservativeIpc(w, size)
         <= Sum(q, Clip(x - size + 1), x)
         <= size as real * OptimisticIpc(w, size)
  {
    BoundColumns(w, size);
    WindowBetween(rs, size, w, i, j, q, x);
  }

  // ---------- the interpolation ----------

  lemma Scale(n: real, a: real, c: real)
    requires c != 0.0
    ensures n * (a / c) == a * (n / c)
  {
  }

  // The interpolated value of the row, times the window size.
  lemma LinearUnfolds(w: Window, size: int)
    requires size >= 1 && w.trailing.cycCount >= 1 && w.leading.cycCount >= 1
    ensures size as real * LinearIpc(w, size)
         == TrailingCycInWindow(w) as real * (w.trailing.insnCount as real / w.trailing.cycCount as real)
            + (if w.isSingleRange then 0.0
               else LeadingCycInWindow(w) as real * (w.leading.insnCount as real / w.leading.cycCount as real))
            + InteriorInsns(w) as real
  {
    var t := w.trailing.insnCount as real * (TrailingCycInWindow(w) as real / w.trailing.cycCount as real);
    var l := LeadingInsns(w) as real * (LeadingCycInWindow(w) as real / w.leading.cycCount as real);
    TimesSize(t + l + InteriorInsns(w) as real, size);
    Scale(w.trailing.insnCount as real, TrailingCycInWindow(w) as real, w.trailing.cycCount as real);
    Scale(w.leading.insnCount as real, LeadingCycInWindow(w) as real, w.leading.cycCount as real);
  }

  // What the formula credits to the cycles before cycle 1 that a window at the very start of
  // the trace reaches into.
  function Excess(rs: seq<Range>, w: Window): real
    requires |rs| > 0 && rs[0].cycCount >= 1
  {
    (Clip(w.windowStart) - w.windowStart) as real * (rs[0].insnCount as real / rs[0].cycCount as real)
  }

  lemma SpreadOverTrailing(rs: seq<Range>, size: int, w: Window, i: nat, j: nat)
    requires Table(rs) && WindowAt(rs, size, w, i, j)
    ensures TrailingCycInWindow(w) as real * (w.trailing.insnCount as real / w.trailing.cycCount as real)
         == Sum(Spread(rs), Clip(w.windowStart), EndCyc(rs, j)) + Excess(rs, w)
  {
    hide Sum;
    hide Owner;
    Edges(rs, size, w.windowEnd, i, j);
    var start := Clip(w.windowStart);
    assert TrailingCycInWindow(w) == (EndCyc(rs, j) - start + 1) + (start - w.windowStart);
    assert start != w.windowStart ==> j == 0;
    SpreadWithinRange(rs, j, start, EndCyc(rs, j));
    Distribute(EndCyc(rs, j) - start + 1, start - w.windowStart,
               w.trailing.insnCount as real / w.trailing.cycCount as real);
  }

  lemma SpreadOverLeading(rs: seq<Range>, size: int, w: Window, i: nat, j: nat)
    requires Table(rs) && WindowAt(rs, size, w, i, j) && i != j
    ensures LeadingCycInWindow(w) as real * (w.leading.insnCount as real / w.leading.cycCount as real)
         == Sum(Spread(rs), EndCyc(rs, i - 1) + 1, w.windowEnd)
  {
    hide Sum;
    hide Owner;
    hide Spread;
    Edges(rs, size, w.windowEnd, i, j);
    SpreadWithinRange(rs, i, EndCyc(rs, i - 1) + 1, w.windowEnd);
  }

  // The fast form against the simple one: the value computed from running totals and two
  // edges is the sum over the cycles of the window, plus that excess.
  lemma LinearIsPerCycleSum(rs: seq<Range>, size: int, w: Window, i: nat, j: nat)
    requires Table(rs) && WindowAt(rs, size, w, i, j)
    ensures size as real * LinearIpc(w, size)
         == Sum(Spread(rs), Clip(w.windowStart), w.windowEnd) + Excess(rs, w)
  {
    hide LinearIpc;
    hide Sum;
    LinearUnfolds(w, size);
    SpreadOverTrailing(rs, size, w, i, j);
    if i != j {
      SpreadIsPlacement(rs);
      WindowSplits(rs, size, w, i, j, Spread(rs), w.windowEnd);
      SpreadOverLeading(rs, size, w, i, j);
    }
  }

  lemma Distribute(a: int, b: int, r: real)
    ensures (a + b) as real * r == a as real * r + b as real * r
  {
  }

  // The interpolated value is exact when the window lies within the trace, and otherwise
  // only when the first range has no instructions to over-count.
  lemma LinearExactIff(rs: seq<Range>, size: int, w: Window, i: nat, j: nat)
    requires Table(rs) && WindowAt(rs, size, w, i, j)
    ensures size as real * LinearIpc(w, size) == Sum(Spread(rs), Clip(w.windowStart), w.windowEnd)
       <==> w.windowStart >= 1 || rs[0].insnCount == 0
  {
    LinearIsPerCycleSum(rs, size, w, i, j);
    var n, r := Clip(w.windowStart) - w.windowStart, rs[0].insnCount as real / rs[0].cycCount as real;
    if w.windowStart < 1 && rs[0].insnCount > 0 {
      assert r > 0.0;
      assert n as real * r > 0.0;
    }
  }

  lemma CompareScaled(x: real, y: real, size: int)
    requires size >= 1 && size as real * x <= size as real * y
    ensures x <= y
  {
  }

  function RateOf(r: Range): real
    requires r.cycCount >= 1
  {
    r.insnCount as real / r.cycCount as real
  }

  // Instructions that the interpolation leaves to the cycles of the leading range after the
  // window.
  function Held(w: Window): real
    requires w.leading.cycCount >= 1
  {
    if w.isSingleRange then 0.0 else (w.leading.endCumCyc - w.windowEnd) as real * RateOf(w.leading)
  }

  lemma WholeRange(r: Range, inside: int, outside: int)
    requires r.cycCount >= 1 && inside + outside == r.cycCount
    ensures inside as real * RateOf(r) == r.insnCount as real - outside as real * RateOf(r)
  {
    Distribute(inside, outside, RateOf(r));
    assert r.cycCount as real * RateOf(r) == r.insnCount as real;
  }

  lemma EarlyWindow(rs: seq<Range>, size: int, w: Window, i: nat, j: nat)
    requires Table(rs) && WindowAt(rs, size, w, i, j) && w.windowStart < 1
    ensures w.trailing == rs[0] && TrailingCycInWindow(w) == rs[0].cycCount + (1 - w.windowStart)
    ensures !w.isSingleRange ==>
              LeadingCycInWindow(w) + (w.leading.endCumCyc - w.windowEnd) == w.leading.cycCount
  {
    Edges(rs, size, w.windowEnd, i, j);
    assert Follows(rs, 0);
  }

  // Against the optimistic value, the interpolated one has the excess too much and the held
  // instructions too little, as far as the window begins before cycle 1.
  lemma LinearAgainstOptimistic(rs: seq<Range>, size: int, w: Window, i: nat, j: nat)
    requires Table(rs) && WindowAt(rs, size, w, i, j) && w.windowStart < 1
    ensures size as real * LinearIpc(w, size) == size as real * OptimisticIpc(w, size) + Excess(rs, w) - Held(w)
  {
    EarlyWindow(rs, size, w, i, j);
    LinearUnfolds(w, size);
    BoundColumns(w, size);
    hide LinearIpc;
    hide OptimisticIpc;
    hide Table;
    hide WindowAt;
    hide InteriorInsns;
    hide TrailingCycInWindow;
    hide LeadingCycInWindow;
    WholeRange(rs[0], TrailingCycInWindow(w), w.windowStart - 1);
    if !w.isSingleRange {
      WholeRange(w.leading, LeadingCycInWindow(w), w.leading.endCumCyc - w.windowEnd);
    }
    Negated(1 - w.windowStart, RateOf(rs[0]));
  }

  lemma Negated(n: int, r: real)
    ensures (-n) as real * r == -(n as real * r)
  {
  }

  lemma EdgesHaveCycles(rs: seq<Range>, size: int, w: Window, i: nat, j: nat)
    requires Table(rs) && WindowAt(rs, size, w, i, j)
    ensures size >= 1 && w.trailing.cycCount >= 1 && w.leading.cycCount >= 1
  {
  }

  lemma PartNonnegative(r: Range, n: int)
    requires r.cycCount >= 1 && n >= 0
    ensures n as real * (r.insnCount as real / r.cycCount as real) >= 0.0
  {
    assert r.insnCount as real / r.cycCount as real >= 0.0;
  }

  lemma ConservativeIsLeast(rs: seq<Range>, size: int, w: Window, i: nat, j: nat)
    requires Table(rs) && WindowAt(rs, size, w, i, j)
    ensures ConservativeIpc(w, size) <= LinearIpc(w, size)
  {
    hide *;
    CellsAddUp(rs, size, w, i, j);
    EdgesHaveCycles(rs, size, w, i, j);
    LinearUnfolds(w, size);
    BoundColumns(w, size);
    PartNonnegative(w.trailing, TrailingCycInWindow(w));
    PartNonnegative(w.leading, LeadingCycInWindow(w));
    var trailing := TrailingCycInWindow(w) as real * (w.trailing.insnCount as real / w.trailing.cycCount as real);
    var leading := LeadingCycInWindow(w) as real * (w.leading.insnCount as real / w.leading.cycCount as real);
    assert size as real * LinearIpc(w, size)
        == trailing + (if w.isSingleRange then 0.0 else leading) + size as real * ConservativeIpc(w, size);
    CompareScaled(ConservativeIpc(w, size), LinearIpc(w, size), size);
  }

  lemma LinearInsideTrace(rs: seq<Range>, size: int, w: Window, i: nat, j: nat)
    requires Table(rs) && WindowAt(rs, size, w, i, j) && w.windowStart >= 1
    ensures LinearIpc(w, size) <= OptimisticIpc(w, size)
  {
    hide LinearIpc;
    hide ConservativeIpc;
    hide OptimisticIpc;
    hide Sum;
    hide Placement;
    hide Tiled;
    LinearExactIff(rs, size, w, i, j);
    SpreadIsPlacement(rs);
    BoundsHold(rs, size, w, i, j, Spread(rs), w.windowEnd);
    CompareScaled(LinearIpc(w, size), OptimisticIpc(w, size), size);
  }

  // For every row: the interpolated value is never below the conservative bound, and within
  // the optimistic one if and only if the window lies in the trace or what is counted for
  // cycles before the trace is no more than what the leading range holds behind the window.
  lemma LinearWithinBounds(rs: seq<Range>, size: int, w: Window, i: nat, j: nat)
    requires Table(rs) && WindowAt(rs, size, w, i, j)
    ensures ConservativeIpc(w, size) <= LinearIpc(w, size)
    ensures LinearIpc(w, size) <= OptimisticIpc(w, size)
       <==> w.windowStart >= 1 || (1 - w.windowStart) as real * RateOf(rs[0]) <= Held(w)
  {
    ConservativeIsLeast(rs, size, w, i, j);
    EdgesHaveCycles(rs, size, w, i, j);
    ExcessIs(rs, w);
    hide *;
    if w.windowStart >= 1 {
      LinearInsideTrace(rs, size, w, i, j);
    } else {
      LinearAgainstOptimistic(rs, size, w, i, j);
      CompareScaledIff(LinearIpc(w, size), OptimisticIpc(w, size), size);
    }
  }

  lemma ExcessIs(rs: seq<Range>, w: Window)
    requires |rs| > 0 && rs[0].cycCount >= 1
    ensures w.windowStart < 1 ==> Excess(rs, w) == (1 - w.windowStart) as real * RateOf(rs[0])
  {
  }

  lemma CompareScaledIff(x: real, y: real, size: int)
    requires size >= 1
    ensures x <= y <==> size as real * x <= size as real * y
  {
  }
}
