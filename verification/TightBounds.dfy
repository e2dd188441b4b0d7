/**
 How good the two bounds of an ipc_spans row are. The optimistic one is always reached by
 some placement of the instructions; the conservative one is reached exactly when each edge
 range can hide its instructions outside the window.
 */
module TightBounds {
  import opened Ranges
  import opened SlidingWindow
  import opened IpcBounds

  // All instructions of range i in cycle ci, of range j in cycle cj, and of every other range
  // in its last cycle.
  function PickedCycle(rs: seq<Range>, i: nat, ci: int, j: nat, cj: int, r: nat): int
    requires r < |rs|
  {
    if r == i then ci else if r == j then cj else rs[r].endCumCyc
  }

  function Concentrated(rs: seq<Range>, i: nat, ci: int, j: nat, cj: int): int -> real {
    c =>
      var r := Owner(rs, c);
      if r < |rs| && c == PickedCycle(rs, i, ci, j, cj, r) then rs[r].insnCount as real else 0.0
  }

  ghost predicate InRange(rs: seq<Range>, r: nat, c: int) {
    r < |rs| && EndCyc(rs, r - 1) < c <= EndCyc(rs, r)
  }

  lemma {:induction false} SumOfPoint(q: int -> real, lo: int, hi: int, p: int)
    requires forall c :: lo <= c <= hi && c != p ==> q(c) == 0.0
    ensures Sum(q, lo, hi) == if lo <= p <= hi then q(p) else 0.0
    decreases hi - lo
  {
    if lo <= hi {
      SumOfPoint(q, lo, hi - 1, p);
    }
  }

  // Within one range, only the picked cycle carries instructions.
  lemma PartOfConcentrated(rs: seq<Range>, i: nat, ci: int, j: nat, cj: int, r: nat, lo: int, hi: int)
    requires Table(rs) && r < |rs| && InRange(rs, r, PickedCycle(rs, i, ci, j, cj, r))
    requires EndCyc(rs, r - 1) < lo && hi <= EndCyc(rs, r)
    ensures Sum(Concentrated(rs, i, ci, j, cj), lo, hi)
         == if lo <= PickedCycle(rs, i, ci, j, cj, r) <= hi then rs[r].insnCount as real else 0.0
  {
    var q, p := Concentrated(rs, i, ci, j, cj), PickedCycle(rs, i, ci, j, cj, r);
    forall c | lo <= c <= hi
      ensures Owner(rs, c) == r
    {
      OwnerIs(rs, c, r);
    }
    SumOfPoint(q, lo, hi, p);
  }

  lemma ConcentratedIsPlacement(rs: seq<Range>, i: nat, ci: int, j: nat, cj: int)
    requires Table(rs) && InRange(rs, i, ci) && InRange(rs, j, cj)
    ensures Placement(rs, Concentrated(rs, i, ci, j, cj))
  {
    var q := Concentrated(rs, i, ci, j, cj);
    forall r | 0 <= r < |rs|
      ensures RangeSum(rs, q, r) == rs[r].insnCount as real
    {
      EndsIncrease(rs, r - 1, r);
      PartOfConcentrated(rs, i, ci, j, cj, r, EndCyc(rs, r - 1) + 1, rs[r].endCumCyc);
    }
  }

  lemma ConcentratedInTrailing(rs: seq<Range>, size: int, i: nat, j: nat, x: int, ci: int, cj: int)
    requires Table(rs) && |rs| > 0 && Covers(rs, size, x, i, j) && i != j && InRange(rs, j, cj)
    ensures Sum(Concentrated(rs, i, ci, j, cj), Clip(x - size + 1), EndCyc(rs, j))
         == if Clip(x - size + 1) <= cj then rs[j].insnCount as real else 0.0
  {
    hide Concentrated;
    hide Sum;
    Edges(rs, size, x, i, j);
    PartOfConcentrated(rs, i, ci, j, cj, j, Clip(x - size + 1), EndCyc(rs, j));
  }

  lemma ConcentratedInLeading(rs: seq<Range>, size: int, i: nat, j: nat, x: int, ci: int, cj: int)
    requires Table(rs) && |rs| > 0 && Covers(rs, size, x, i, j) && InRange(rs, i, ci)
    ensures i < |rs|
    ensures Sum(Concentrated(rs, i, ci, j, cj), EndCyc(rs, i - 1) + 1, x)
         == if ci <= x then rs[i].insnCount as real else 0.0
  {
    hide Concentrated;
    hide Sum;
    Edges(rs, size, x, i, j);
    PartOfConcentrated(rs, i, ci, j, cj, i, EndCyc(rs, i - 1) + 1, x);
  }

  // What the window ending at x then holds: over two edge ranges, and over a single one.
  lemma ConcentratedInWindow(rs: seq<Range>, size: int, w: Window, i: nat, j: nat, x: int, ci: int, cj: int)
    requires Table(rs) && HasEdges(rs, w, i, j) && Covers(rs, size, x, i, j) && i != j
    requires InRange(rs, i, ci) && InRange(rs, j, cj)
    ensures Sum(Concentrated(rs, i, ci, j, cj), Clip(x - size + 1), x)
         == InteriorInsns(w) as real
            + (if ci <= x then rs[i].insnCount as real else 0.0)
            + (if Clip(x - size + 1) <= cj then rs[j].insnCount as real else 0.0)
  {
    assert |rs| > 0;
    hide *;
    ConcentratedIsPlacement(rs, i, ci, j, cj);
    WindowSplits(rs, size, w, i, j, Concentrated(rs, i, ci, j, cj), x);
    ConcentratedInTrailing(rs, size, i, j, x, ci, cj);
    ConcentratedInLeading(rs, size, i, j, x, ci, cj);
  }

  lemma ConcentratedInOneRange(rs: seq<Range>, size: int, i: nat, x: int, c: int)
    requires Table(rs) && |rs| > 0 && Covers(rs, size, x, i, i) && InRange(rs, i, c)
    ensures Sum(Concentrated(rs, i, c, i, c), Clip(x - size + 1), x)
         == if Clip(x - size + 1) <= c <= x then rs[i].insnCount as real else 0.0
  {
    hide Concentrated;
    hide Sum;
    Edges(rs, size, x, i, i);
    PartOfConcentrated(rs, i, c, i, c, i, Clip(x - size + 1), x);
  }

  // Some placement puts exactly the given number of instructions into the window ending at x.
  ghost predicate Attained(rs: seq<Range>, size: int, x: int, n: real) {
    exists q: int -> real :: Placement(rs, q) && Sum(q, Clip(x - size + 1), x) == n
  }

  lemma OptimisticIsAttained(rs: seq<Range>, size: int, w: Window, i: nat, j: nat, x: int)
    requires Table(rs) && HasEdges(rs, w, i, j) && Covers(rs, size, x, i, j)
    ensures Attained(rs, size, x, size as real * OptimisticIpc(w, size))
  {
    Edges(rs, size, x, i, j);
    BoundColumns(w, size);
    hide Sum;
    hide OptimisticIpc;
    var ci := if i == j then x else EndCyc(rs, i - 1) + 1;
    var cj := if i == j then x else EndCyc(rs, j);
    var q := Concentrated(rs, i, ci, j, cj);
    ConcentratedIsPlacement(rs, i, ci, j, cj);
    hide Concentrated;
    if i == j {
      ConcentratedInOneRange(rs, size, i, x, x);
    } else {
      ConcentratedInWindow(rs, size, w, i, j, x, ci, cj);
    }
    assert Sum(q, Clip(x - size + 1), x) == size as real * OptimisticIpc(w, size);
  }

  // Range r has no instructions, or a cycle outside the window that ends at x.
  predicate CanHide(rs: seq<Range>, size: int, x: int, r: nat)
    requires r < |rs|
  {
    rs[r].insnCount == 0 || EndCyc(rs, r - 1) + 1 < Clip(x - size + 1) || x < EndCyc(rs, r)
  }

  // A cycle of range r outside the window, if there is one.
  function HidingPlace(rs: seq<Range>, size: int, x: int, r: nat): int
    requires r < |rs|
  {
    if x < EndCyc(rs, r) then EndCyc(rs, r) else EndCyc(rs, r - 1) + 1
  }

  lemma ConservativeIsAttained(rs: seq<Range>, size: int, w: Window, i: nat, j: nat, x: int)
    requires Table(rs) && HasEdges(rs, w, i, j) && Covers(rs, size, x, i, j)
    requires CanHide(rs, size, x, i) && CanHide(rs, size, x, j)
    ensures Attained(rs, size, x, size as real * ConservativeIpc(w, size))
  {
    Edges(rs, size, x, i, j);
    EndsIncrease(rs, i - 1, i);
    EndsIncrease(rs, j - 1, j);
    BoundColumns(w, size);
    hide Sum;
    hide ConservativeIpc;
    var ci, cj := HidingPlace(rs, size, x, i), HidingPlace(rs, size, x, j);
    var q := Concentrated(rs, i, ci, j, cj);
    ConcentratedIsPlacement(rs, i, ci, j, cj);
    hide Concentrated;
    if i == j {
      ConcentratedInOneRange(rs, size, i, x, ci);
    } else {
      ConcentratedInWindow(rs, size, w, i, j, x, ci, cj);
    }
    assert Sum(q, Clip(x - size + 1), x) == InteriorInsns(w) as real;
  }

  // If an edge range lies wholly inside the window, all its instructions count.
  lemma NothingHidden(rs: seq<Range>, size: int, w: Window, i: nat, j: nat, x: int, q: int -> real)
    requires Table(rs) && HasEdges(rs, w, i, j) && Covers(rs, size, x, i, j) && Placement(rs, q)
    requires !CanHide(rs, size, x, i) || !CanHide(rs, size, x, j)
    ensures Sum(q, Clip(x - size + 1), x) > InteriorInsns(w) as real
  {
    hide Sum;
    hide Owner;
    Edges(rs, size, x, i, j);
    SumOfRanges(rs, q, i - 1, i);
    SumOfRanges(rs, q, j - 1, j);
    hide Placement;
    hide Tiled;
    if i != j {
      WindowSplits(rs, size, w, i, j, q, x);
      PartOfRange(rs, q, j, Clip(x - size + 1), EndCyc(rs, j));
      PartOfRange(rs, q, i, EndCyc(rs, i - 1) + 1, x);
    }
  }

  // The conservative bound is reached exactly when neither edge range is forced to count.
  lemma ConservativeIsAttainedIff(rs: seq<Range>, size: int, w: Window, i: nat, j: nat, x: int)
    requires Table(rs) && HasEdges(rs, w, i, j) && Covers(rs, size, x, i, j)
    ensures Attained(rs, size, x, size as real * ConservativeIpc(w, size))
       <==> CanHide(rs, size, x, i) && CanHide(rs, size, x, j)
  {
    if CanHide(rs, size, x, i) && CanHide(rs, size, x, j) {
      ConservativeIsAttained(rs, size, w, i, j, x);
    } else {
      BoundColumns(w, size);
      forall q: int -> real | Placement(rs, q)
        ensures Sum(q, Clip(x - size + 1), x) != size as real * ConservativeIpc(w, size)
      {
        NothingHidden(rs, size, w, i, j, x, q);
      }
    }
  }
}
