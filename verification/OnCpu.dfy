/**
 Pairing system calls with context switches on one CPU: every call or switch starts an
 interval, which the next return or switch ends. Calls and returns are in the tables when one
 end of the system call lies in view, switches only when they themselves do.
 */
module OnCpu {
  import opened Options

  // What the CPU does, in the order of time. A call or return names its system call; a switch
  // leaves the kernel side of one thread for the kernel side of another.
  datatype Event =
    | Call(time: nat, id: nat)
    | Return(time: nat, id: nat)
    | Switch(time: nat)

  datatype Mode = User | InSyscall

  function ModeAfter(e: Event): Mode {
    if e.Return? then User else InSyscall
  }

  function ModeBefore(trace: seq<Event>, first: Mode, i: nat): Mode
    requires i <= |trace|
  {
    if i == 0 then first else ModeAfter(trace[i - 1])
  }

  predicate Increasing(trace: seq<Event>) {
    forall i, j :: 0 <= i < j < |trace| ==> trace[i].time < trace[j].time
  }

  // Calls happen in user mode; returns and switches inside a system call.
  predicate Fits(trace: seq<Event>, first: Mode, i: nat)
    requires i < |trace|
  {
    trace[i].Call? <==> ModeBefore(trace, first, i) == User
  }

  predicate OneCpu(trace: seq<Event>, first: Mode) {
    && Increasing(trace)
    && forall i :: 0 <= i < |trace| ==> Fits(trace, first, i)
  }

  // ---------- range_starts, range_ends and their as-of join ----------

  predicate InView(e: Event, lo: nat, hi: nat) {
    lo <= e.time <= hi
  }

  predicate SameCall(e: Event, f: Event) {
    !e.Switch? && !f.Switch? && e.id == f.id
  }

  predicate Listed(trace: seq<Event>, lo: nat, hi: nat, i: nat)
    requires i < |trace|
  {
    || InView(trace[i], lo, hi)
    || exists j :: 0 <= j < |trace| && SameCall(trace[i], trace[j]) && InView(trace[j], lo, hi)
  }

  predicate IsStart(trace: seq<Event>, lo: nat, hi: nat, i: nat)
    requires i < |trace|
  {
    !trace[i].Return? && Listed(trace, lo, hi, i)
  }

  predicate IsEnd(trace: seq<Event>, lo: nat, hi: nat, i: nat)
    requires i < |trace|
  {
    !trace[i].Call? && Listed(trace, lo, hi, i)
  }

  // The first end from event i on.
  function FirstEnd(trace: seq<Event>, lo: nat, hi: nat, i: nat): Option<nat>
    requires i <= |trace|
    decreases |trace| - i
  {
    if i == |trace| then None
    else if IsEnd(trace, lo, hi, i) then Some(i)
    else FirstEnd(trace, lo, hi, i + 1)
  }

  // Events i and j are the two ends of a row of on_cpu_syscalls.
  predicate IsRow(trace: seq<Event>, lo: nat, hi: nat, i: nat, j: nat) {
    i < |trace| && IsStart(trace, lo, hi, i) && FirstEnd(trace, lo, hi, i + 1) == Some(j)
  }

  // The consistency assertion lists this row.
  predicate Flagged(trace: seq<Event>, lo: nat, hi: nat, i: nat, j: nat)
    requires i < |trace| && j < |trace|
  {
    && (InView(trace[i], lo, hi) || InView(trace[j], lo, hi))
    && (trace[i].Switch? <==> trace[j].Switch?)
    && (!trace[i].Switch? ==> trace[i].id != trace[j].id)
  }

  lemma {:induction false} FirstEndIs(trace: seq<Event>, lo: nat, hi: nat, i: nat)
    requires i <= |trace| && Increasing(trace)
    ensures var r := FirstEnd(trace, lo, hi, i);
            && (r.Some? ==>
                  && i <= r.value < |trace| && IsEnd(trace, lo, hi, r.value)
                  && forall k :: i <= k < |trace| && IsEnd(trace, lo, hi, k) ==>
                       trace[r.value].time <= trace[k].time)
            && (r.None? ==> forall k :: i <= k < |trace| ==> !IsEnd(trace, lo, hi, k))
    decreases |trace| - i
  {
    if i < |trace| && !IsEnd(trace, lo, hi, i) {
      FirstEndIs(trace, lo, hi, i + 1);
    }
  }

  // The join picks, for each start, the least end time above the start time.
  lemma {:induction false} JoinIsAsOf(trace: seq<Event>, lo: nat, hi: nat, i: nat, j: nat)
    requires Increasing(trace) && i < |trace| && IsStart(trace, lo, hi, i)
    ensures IsRow(trace, lo, hi, i, j) <==>
              && j < |trace| && IsEnd(trace, lo, hi, j) && trace[j].time > trace[i].time
              && forall k :: 0 <= k < |trace| && IsEnd(trace, lo, hi, k) && trace[k].time > trace[i].time ==>
                   trace[j].time <= trace[k].time
  {
    FirstEndIs(trace, lo, hi, i + 1);
  }

  // ---------- what the CPU really did ----------

  function EventsBy(trace: seq<Event>, t: nat): nat {
    if trace == [] then 0
    else if trace[|trace| - 1].time <= t then |trace|
    else EventsBy(trace[..|trace| - 1], t)
  }

  lemma {:induction false} EventsByIs(trace: seq<Event>, t: nat)
    requires Increasing(trace)
    ensures EventsBy(trace, t) <= |trace|
    ensures forall i :: 0 <= i < |trace| ==> (trace[i].time <= t <==> i < EventsBy(trace, t))
  {
    if trace != [] && trace[|trace| - 1].time > t {
      EventsByIs(trace[..|trace| - 1], t);
    }
  }

  // The CPU is inside a system call at time t.
  predicate BusyAt(trace: seq<Event>, first: Mode, t: nat) {
    EventsBy(trace, t) <= |trace| && ModeBefore(trace, first, EventsBy(trace, t)) == InSyscall
  }

  // Between events n - 1 and n the mode is the one event n - 1 leads to.
  lemma BusyAfter(trace: seq<Event>, first: Mode, n: nat, t: nat)
    requires Increasing(trace) && 0 < n <= |trace|
    requires trace[n - 1].time <= t && (n < |trace| ==> t < trace[n].time)
    ensures EventsBy(trace, t) == n
    ensures BusyAt(trace, first, t) <==> !trace[n - 1].Return?
  {
    EventsByIs(trace, t);
  }

  // ---------- laws ----------

  // A start in view is joined to the very next event, when that is in view as well.
  lemma {:induction false} JoinsNextEvent(trace: seq<Event>, first: Mode, lo: nat, hi: nat, i: nat)
    requires OneCpu(trace, first) && i + 1 < |trace|
    requires InView(trace[i], lo, hi) && InView(trace[i + 1], lo, hi)
    ensures forall j :: IsRow(trace, lo, hi, i, j) <==> !trace[i].Return? && j == i + 1
  {
    if !trace[i].Return? {
      assert Fits(trace, first, i + 1);
      assert IsEnd(trace, lo, hi, i + 1);
    }
  }

  // A system call that is not left before it returns makes a row of its own, also when the
  // edge of the view lies between its call and its return.
  lemma {:induction false} JoinsOwnReturn(trace: seq<Event>, first: Mode, lo: nat, hi: nat, i: nat)
    requires OneCpu(trace, first) && i + 1 < |trace|
    requires trace[i].Call? && trace[i + 1].Return? && trace[i].id == trace[i + 1].id
    requires lo <= trace[i].time <= hi || lo <= trace[i + 1].time <= hi
    ensures forall j :: IsRow(trace, lo, hi, i, j) <==> j == i + 1
  {
    assert SameCall(trace[i], trace[i + 1]) && SameCall(trace[i + 1], trace[i]);
    assert IsStart(trace, lo, hi, i) && IsEnd(trace, lo, hi, i + 1);
  }

  predicate RowCovers(trace: seq<Event>, lo: nat, hi: nat, t: nat, i: nat, j: nat) {
    && IsRow(trace, lo, hi, i, j) && j < |trace|
    && InView(trace[i], lo, hi) && trace[i].time <= t < trace[j].time
  }

  // Between two events in view, the rows that start in view cover exactly the time spent
  // inside system calls, and no instant twice.
  lemma {:induction false} CoversSyscallTime(
    trace: seq<Event>, first: Mode, lo: nat, hi: nat, a: nat, b: nat, t: nat)
    requires OneCpu(trace, first) && a < b < |trace|
    requires InView(trace[a], lo, hi) && InView(trace[b], lo, hi)
    requires trace[a].time <= t < trace[b].time
    ensures BusyAt(trace, first, t) <==> exists i, j :: RowCovers(trace, lo, hi, t, i, j)
    ensures forall i, j, k, m :: RowCovers(trace, lo, hi, t, i, j) && RowCovers(trace, lo, hi, t, k, m) ==>
              i == k && j == m
  {
    EventsByIs(trace, t);
    var n := EventsBy(trace, t);
    hide EventsBy;
    hide Increasing;
    BusyAfter(trace, first, n, t);
    hide BusyAt;
    AroundIsInView(trace, lo, hi, a, b, n);
    JoinsNextEvent(trace, first, lo, hi, n - 1);
    forall i: nat, j: nat | RowCovers(trace, lo, hi, t, i, j)
      ensures i == n - 1 && j == n
    {
      AroundIsInView(trace, lo, hi, i, b, i + 1);
      JoinsNextEvent(trace, first, lo, hi, i);
      hide IsRow;
    }
    if BusyAt(trace, first, t) {
      assert RowCovers(trace, lo, hi, t, n - 1, n);
    }
  }

  lemma AroundIsInView(trace: seq<Event>, lo: nat, hi: nat, a: nat, b: nat, n: nat)
    requires Increasing(trace) && a < n <= b < |trace|
    requires InView(trace[a], lo, hi) && InView(trace[b], lo, hi)
    ensures InView(trace[n - 1], lo, hi) && InView(trace[n], lo, hi)
  {}

  // A system call is left once before it returns, and returns under its own name.
  predicate BlocksOnceAndMatches(trace: seq<Event>, i: nat)
    requires i + 1 < |trace|
  {
    && !(trace[i].Switch? && trace[i + 1].Switch?)
    && (trace[i].Call? && trace[i + 1].Return? ==> trace[i].id == trace[i + 1].id)
  }

  // Every system call is called once and returns once, in that order.
  predicate OneCallEach(trace: seq<Event>) {
    forall i, j :: 0 <= i < j < |trace| && SameCall(trace[i], trace[j]) ==> trace[i].Call? && trace[j].Return?
  }

  predicate AssertionHolds(trace: seq<Event>, lo: nat, hi: nat) {
    forall i, j :: 0 <= i < |trace| && 0 <= j < |trace| && IsRow(trace, lo, hi, i, j) ==> !Flagged(trace, lo, hi, i, j)
  }

  // ---------- the assertion, for every view ----------

  predicate SoundInView(trace: seq<Event>, lo: nat, hi: nat) {
    forall i :: 0 <= i < |trace| - 1 && InView(trace[i], lo, hi) && InView(trace[i + 1], lo, hi) ==>
      BlocksOnceAndMatches(trace, i)
  }

  // Event f is the first in view that is not a call.
  predicate FirstEndInView(trace: seq<Event>, lo: nat, hi: nat, f: nat) {
    && f < |trace| && InView(trace[f], lo, hi) && !trace[f].Call?
    && forall k :: 0 <= k < f && InView(trace[k], lo, hi) ==> trace[k].Call?
  }

  // The view is entered with a switch, or with the return of the only call listed from before.
  predicate EntersCleanly(trace: seq<Event>, lo: nat, hi: nat) {
    forall i, f :: 0 <= i < |trace| && 0 <= f < |trace| && Early(trace, lo, hi, i) && FirstEndInView(trace, lo, hi, f) ==>
      trace[f].Switch? || trace[f].id == trace[i].id
  }

  // Event i is a call from before the view that is listed for its return.
  predicate Early(trace: seq<Event>, lo: nat, hi: nat, i: nat) {
    i < |trace| && trace[i].Call? && trace[i].time < lo && Listed(trace, lo, hi, i)
  }

  // Event i is a call and the last event in view.
  predicate LastIsCall(trace: seq<Event>, lo: nat, hi: nat, i: nat) {
    && i < |trace| && trace[i].Call? && InView(trace[i], lo, hi)
    && forall k :: i < k < |trace| ==> !InView(trace[k], lo, hi)
  }

  // Event r is the first after i that returns from a call in view.
  predicate FirstReturnAfter(trace: seq<Event>, lo: nat, hi: nat, i: nat, r: nat) {
    && i < r < |trace| && IsEnd(trace, lo, hi, r)
    && forall k :: i < k < r ==> !IsEnd(trace, lo, hi, k)
  }

  // The view is not left through a call, or the first return listed from behind it is its own.
  predicate LeavesCleanly(trace: seq<Event>, lo: nat, hi: nat) {
    forall i, r :: 0 <= i < |trace| && 0 <= r < |trace| ==>
      LastIsCall(trace, lo, hi, i) && FirstReturnAfter(trace, lo, hi, i, r) ==>
      !trace[r].Switch? && trace[r].id == trace[i].id
  }

  // Ends from before the view are not listed: their calls would have to come later.
  lemma EarlyEndsAreNotListed(trace: seq<Event>, lo: nat, hi: nat, k: nat)
    requires Increasing(trace) && OneCallEach(trace) && k < |trace| && trace[k].time < lo
    ensures !IsEnd(trace, lo, hi, k)
  {
  }

  // Neither are calls and switches from behind it.
  lemma LateStartsAreNotListed(trace: seq<Event>, lo: nat, hi: nat, k: nat)
    requires Increasing(trace) && OneCallEach(trace) && k < |trace| && trace[k].time > hi
    ensures !IsStart(trace, lo, hi, k)
  {
  }

  lemma {:induction false} FirstEndFrom(trace: seq<Event>, lo: nat, hi: nat, i: nat, j: nat)
    requires i <= |trace|
    ensures FirstEnd(trace, lo, hi, i) == Some(j) <==>
              i <= j < |trace| && IsEnd(trace, lo, hi, j) && forall k :: i <= k < j ==> !IsEnd(trace, lo, hi, k)
    decreases |trace| - i
  {
    if i < |trace| && !IsEnd(trace, lo, hi, i) {
      FirstEndFrom(trace, lo, hi, i + 1, j);
    }
  }

  // A row that starts before the view ends with the first end in view.
  lemma EarlyRow(trace: seq<Event>, first: Mode, lo: nat, hi: nat, i: nat, j: nat)
    requires OneCpu(trace, first) && OneCallEach(trace) && i < |trace| && trace[i].time < lo
    ensures IsRow(trace, lo, hi, i, j) <==> Early(trace, lo, hi, i) && FirstEndInView(trace, lo, hi, j)
  {
    FirstEndFrom(trace, lo, hi, i + 1, j);
    forall k | 0 <= k < |trace| && trace[k].time < lo
      ensures !IsEnd(trace, lo, hi, k)
    {
      EarlyEndsAreNotListed(trace, lo, hi, k);
    }
    hide FirstEnd;
    if IsRow(trace, lo, hi, i, j) {
      var r := ReturnInView(trace, lo, hi, i);
      hide OneCallEach;
      assert IsEnd(trace, lo, hi, r);
      assert j <= r;
      assert InView(trace[j], lo, hi);
      forall k | 0 <= k < j && InView(trace[k], lo, hi)
        ensures trace[k].Call?
      {
        assert i < k && !IsEnd(trace, lo, hi, k);
      }
    }
    if Early(trace, lo, hi, i) && FirstEndInView(trace, lo, hi, j) {
      assert i < j && IsEnd(trace, lo, hi, j);
      forall k | i + 1 <= k < j
        ensures !IsEnd(trace, lo, hi, k)
      {
        assert trace[k].time < trace[j].time;
        assert trace[k].time >= lo ==> InView(trace[k], lo, hi);
      }
    }
  }

  // A call listed from before the view returns in view, so some end is in view.
  lemma ReturnInView(trace: seq<Event>, lo: nat, hi: nat, i: nat) returns (r: nat)
    requires Increasing(trace) && OneCallEach(trace)
    requires i < |trace| && IsStart(trace, lo, hi, i) && trace[i].time < lo
    ensures i < r < |trace| && trace[r].Return? && InView(trace[r], lo, hi) && trace[i].Call?
  {
    r :| 0 <= r < |trace| && SameCall(trace[i], trace[r]) && InView(trace[r], lo, hi);
  }

  // A row that starts with a call in view after which nothing is in view.
  lemma LastRow(trace: seq<Event>, first: Mode, lo: nat, hi: nat, i: nat, j: nat)
    requires OneCpu(trace, first) && i < |trace| && LastIsCall(trace, lo, hi, i)
    ensures IsRow(trace, lo, hi, i, j) <==> FirstReturnAfter(trace, lo, hi, i, j)
    ensures IsRow(trace, lo, hi, i, j) ==> j < |trace| && trace[j].Return?
  {
    FirstEndFrom(trace, lo, hi, i + 1, j);
    hide FirstEnd;
  }

  // What each row must satisfy not to be listed by the assertion.
  lemma EarlyRowFlagged(trace: seq<Event>, first: Mode, lo: nat, hi: nat, i: nat, j: nat)
    requires OneCpu(trace, first) && OneCallEach(trace)
    requires i < |trace| && j < |trace| && trace[i].time < lo && IsRow(trace, lo, hi, i, j)
    ensures Early(trace, lo, hi, i) && FirstEndInView(trace, lo, hi, j)
    ensures Flagged(trace, lo, hi, i, j) <==> !trace[j].Switch? && trace[j].id != trace[i].id
  {
    EarlyRow(trace, first, lo, hi, i, j);
    hide IsRow;
  }

  lemma InnerRowFlagged(trace: seq<Event>, first: Mode, lo: nat, hi: nat, i: nat, j: nat)
    requires OneCpu(trace, first) && i + 1 < |trace| && j < |trace|
    requires InView(trace[i], lo, hi) && InView(trace[i + 1], lo, hi) && IsRow(trace, lo, hi, i, j)
    ensures j == i + 1 && (Flagged(trace, lo, hi, i, j) <==> !BlocksOnceAndMatches(trace, i))
  {
    JoinsNextEvent(trace, first, lo, hi, i);
    hide IsRow;
    assert Fits(trace, first, i + 1);
  }

  lemma LastRowFlagged(trace: seq<Event>, first: Mode, lo: nat, hi: nat, i: nat, j: nat)
    requires OneCpu(trace, first) && i < |trace| && j < |trace| && InView(trace[i], lo, hi)
    requires i + 1 < |trace| ==> !InView(trace[i + 1], lo, hi)
    requires IsRow(trace, lo, hi, i, j)
    ensures Flagged(trace, lo, hi, i, j) <==>
              LastIsCall(trace, lo, hi, i) && FirstReturnAfter(trace, lo, hi, i, j) && trace[j].id != trace[i].id
  {
    FirstEndFrom(trace, lo, hi, i + 1, j);
    hide FirstEnd;
    assert !InView(trace[j], lo, hi) && !trace[j].Switch?;
    if trace[i].Call? {
      LastRow(trace, first, lo, hi, i, j);
    }
  }

  lemma ConditionsSuffice(trace: seq<Event>, first: Mode, lo: nat, hi: nat, i: nat, j: nat)
    requires OneCpu(trace, first) && OneCallEach(trace)
    requires SoundInView(trace, lo, hi) && EntersCleanly(trace, lo, hi) && LeavesCleanly(trace, lo, hi)
    requires i < |trace| && j < |trace| && IsRow(trace, lo, hi, i, j)
    ensures !Flagged(trace, lo, hi, i, j)
  {
    hide FirstEnd;
    if trace[i].time < lo {
      EarlyRowFlagged(trace, first, lo, hi, i, j);
    } else if trace[i].time > hi {
      LateStartsAreNotListed(trace, lo, hi, i);
    } else if i + 1 < |trace| && InView(trace[i + 1], lo, hi) {
      InnerRowFlagged(trace, first, lo, hi, i, j);
    } else {
      LastRowFlagged(trace, first, lo, hi, i, j);
    }
  }

  lemma ConditionsNeeded(trace: seq<Event>, first: Mode, lo: nat, hi: nat)
    requires OneCpu(trace, first) && OneCallEach(trace) && AssertionHolds(trace, lo, hi)
    ensures SoundInView(trace, lo, hi) && EntersCleanly(trace, lo, hi) && LeavesCleanly(trace, lo, hi)
  {
    hide FirstEnd;
    forall i | 0 <= i < |trace| - 1 && InView(trace[i], lo, hi) && InView(trace[i + 1], lo, hi)
      ensures BlocksOnceAndMatches(trace, i)
    {
      JoinsNextEvent(trace, first, lo, hi, i);
      if !trace[i].Return? {
        assert IsRow(trace, lo, hi, i, i + 1);
        InnerRowFlagged(trace, first, lo, hi, i, i + 1);
      }
    }
    forall i, f | 0 <= i < |trace| && 0 <= f < |trace| && Early(trace, lo, hi, i) && FirstEndInView(trace, lo, hi, f)
      ensures trace[f].Switch? || trace[f].id == trace[i].id
    {
      EarlyRow(trace, first, lo, hi, i, f);
      EarlyRowFlagged(trace, first, lo, hi, i, f);
    }
    forall i, r | 0 <= i < |trace| && 0 <= r < |trace| && LastIsCall(trace, lo, hi, i)
                  && FirstReturnAfter(trace, lo, hi, i, r)
      ensures !trace[r].Switch? && trace[r].id == trace[i].id
    {
      LastRow(trace, first, lo, hi, i, r);
      LastRowFlagged(trace, first, lo, hi, i, r);
    }
  }

  // For every trace of one CPU and every view, the assertion finds no row if and only if
  // within the view every system call blocks once at most and returns as itself, and neither
  // edge of the view joins one call to the return of another.
  lemma {:induction false} AssertionHoldsIff(trace: seq<Event>, first: Mode, lo: nat, hi: nat)
    requires OneCpu(trace, first) && OneCallEach(trace)
    ensures AssertionHolds(trace, lo, hi) <==>
              SoundInView(trace, lo, hi) && EntersCleanly(trace, lo, hi) && LeavesCleanly(trace, lo, hi)
  {
    if AssertionHolds(trace, lo, hi) {
      ConditionsNeeded(trace, first, lo, hi);
    }
    if SoundInView(trace, lo, hi) && EntersCleanly(trace, lo, hi) && LeavesCleanly(trace, lo, hi) {
      forall i, j | 0 <= i < |trace| && 0 <= j < |trace| && IsRow(trace, lo, hi, i, j)
        ensures !Flagged(trace, lo, hi, i, j)
      {
        ConditionsSuffice(trace, first, lo, hi, i, j);
      }
    }
  }

  predicate AllInView(trace: seq<Event>, lo: nat, hi: nat) {
    forall i :: 0 <= i < |trace| ==> InView(trace[i], lo, hi)
  }

  // With the whole trace in view only the first of these conditions is left, and the calls and
  // returns need not be paired.
  lemma {:induction false} WholeViewAssertionIff(trace: seq<Event>, first: Mode, lo: nat, hi: nat)
    requires OneCpu(trace, first) && AllInView(trace, lo, hi)
    ensures AssertionHolds(trace, lo, hi) <==>
              forall i :: 0 <= i < |trace| - 1 ==> BlocksOnceAndMatches(trace, i)
  {
    hide FirstEnd;
    forall i | 0 <= i < |trace| - 1
      ensures forall j :: 0 <= j < |trace| && IsRow(trace, lo, hi, i, j) ==>
                j == i + 1 && (Flagged(trace, lo, hi, i, j) <==> !BlocksOnceAndMatches(trace, i))
      ensures !BlocksOnceAndMatches(trace, i) ==> IsRow(trace, lo, hi, i, i + 1)
    {
      JoinsNextEvent(trace, first, lo, hi, i);
      forall j | 0 <= j < |trace| && IsRow(trace, lo, hi, i, j)
        ensures j == i + 1 && (Flagged(trace, lo, hi, i, j) <==> !BlocksOnceAndMatches(trace, i))
      {
        InnerRowFlagged(trace, first, lo, hi, i, j);
      }
    }
    if !AssertionHolds(trace, lo, hi) {
      var i, j :| 0 <= i < |trace| && 0 <= j < |trace| && IsRow(trace, lo, hi, i, j) && Flagged(trace, lo, hi, i, j);
      FirstEndFrom(trace, lo, hi, i + 1, j);
      assert !BlocksOnceAndMatches(trace, i);
    }
  }

  // A trace in which every system call blocks once at most and returns as itself, and a view
  // on which the assertion fails all the same: the view is entered between the two switches
  // of call 0, with the return of call 1.
  function Blocked(): seq<Event> {
    [Call(1, 0), Switch(2), Return(11, 1), Call(12, 2), Switch(13), Return(14, 0)]
  }

  lemma BlockedIsSound()
    ensures OneCpu(Blocked(), User) && OneCallEach(Blocked())
  {
    var trace := Blocked();
    assert Increasing(trace);
    assert forall i :: 0 <= i < |trace| ==> Fits(trace, User, i);
  }

  lemma {:induction false} ViewCanBreakAssertion()
    ensures OneCpu(Blocked(), User) && OneCallEach(Blocked())
    ensures AssertionHolds(Blocked(), 0, 20) && !AssertionHolds(Blocked(), 10, 20)
  {
    var trace := Blocked();
    BlockedIsSound();
    hide OneCpu;
    hide OneCallEach;
    hide AssertionHolds;
    assert AllInView(trace, 0, 20);
    WholeViewAssertionIff(trace, User, 0, 20);
    AssertionHoldsIff(trace, User, 10, 20);
    assert SameCall(trace[0], trace[5]) && InView(trace[5], 10, 20);
    assert Early(trace, 10, 20, 0);
    assert FirstEndInView(trace, 10, 20, 2);
    assert trace[2].id != trace[0].id;
    assert !EntersCleanly(trace, 10, 20);
  }

  // ---------- conservation of time ----------

  // Nanoseconds from a up to b spent inside system calls.
  function BusyTime(trace: seq<Event>, first: Mode, a: nat, b: nat): nat
    decreases b
  {
    if b <= a then 0
    else BusyTime(trace, first, a, b - 1) + if BusyAt(trace, first, b - 1) then 1 else 0
  }

  // Durations of the rows that start with one of the events from a on and before b.
  function RowTime(trace: seq<Event>, lo: nat, hi: nat, a: nat, b: nat): int
    requires b <= |trace|
    decreases b
  {
    if b <= a then 0
    else
      var end := FirstEnd(trace, lo, hi, b);
      RowTime(trace, lo, hi, a, b - 1)
      + if IsStart(trace, lo, hi, b - 1) && end.Some? && end.value < |trace|
        then trace[end.value].time - trace[b - 1].time else 0
  }

  lemma {:induction false} BusyTimeInMode(trace: seq<Event>, first: Mode, a: nat, b: nat, c: nat, busy: bool)
    requires a <= b <= c
    requires forall t :: b <= t < c ==> BusyAt(trace, first, t) == busy
    ensures BusyTime(trace, first, a, c) == BusyTime(trace, first, a, b) + if busy then c - b else 0
  {
    if b < c {
      BusyTimeInMode(trace, first, a, b, c - 1, busy);
    }
  }

  // For every view: from one event in view to another, the durations of the rows that start
  // there add up to the time the CPU spent inside system calls.
  lemma {:induction false} RowTimeIsBusyTime(trace: seq<Event>, first: Mode, lo: nat, hi: nat, a: nat, b: nat)
    requires OneCpu(trace, first) && a <= b < |trace|
    requires InView(trace[a], lo, hi) && InView(trace[b], lo, hi)
    ensures RowTime(trace, lo, hi, a, b) == BusyTime(trace, first, trace[a].time, trace[b].time)
    decreases b
  {
    if a < b {
      AroundIsInView(trace, lo, hi, a, b, b);
      RowTimeIsBusyTime(trace, first, lo, hi, a, b - 1);
      RowTimeOf(trace, first, lo, hi, a, b);
      hide *;
      var busy := !trace[b - 1].Return?;
      OneCpuIncreases(trace, first, a, b);
      forall t | trace[b - 1].time <= t < trace[b].time
        ensures BusyAt(trace, first, t) == busy
      {
        BusyAfter(trace, first, b, t);
      }
      BusyTimeInMode(trace, first, trace[a].time, trace[b - 1].time, trace[b].time, busy);
    } else {
      assert BusyTime(trace, first, trace[a].time, trace[a].time) == 0;
    }
  }

  lemma OneCpuIncreases(trace: seq<Event>, first: Mode, a: nat, b: nat)
    requires OneCpu(trace, first) && a < b < |trace|
    ensures Increasing(trace) && trace[a].time <= trace[b - 1].time < trace[b].time
  {}

  lemma RowTimeOf(trace: seq<Event>, first: Mode, lo: nat, hi: nat, a: nat, b: nat)
    requires OneCpu(trace, first) && a < b < |trace|
    requires InView(trace[b - 1], lo, hi) && InView(trace[b], lo, hi)
    ensures RowTime(trace, lo, hi, a, b) ==
              RowTime(trace, lo, hi, a, b - 1) + if trace[b - 1].Return? then 0 else trace[b].time - trace[b - 1].time
  {
    JoinsNextEvent(trace, first, lo, hi, b - 1);
    hide Increasing;
    hide OneCpu;
    hide Listed;
    hide FirstEnd;
    if !trace[b - 1].Return? {
      assert IsRow(trace, lo, hi, b - 1, b);
    }
  }
}
