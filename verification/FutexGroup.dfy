/**
 All threads of one futex run: one slice of futexes and one flag shared by every pair, with
 each thread's two futexes found from its thread id. What one thread does is invisible to all
 pairs but its own, so the guarantees of a single pair hold for the whole run.
 */
module FutexGroup {

  import opened Totals
  import P = FutexProtocol

  // ---------- thread ids and futexes ----------

  function RoleOf(thread: nat): P.Worker {
    if thread % 2 == 0 then P.First else P.Second
  }

  function BaseIndex(thread: nat): nat {
    if thread % 2 == 0 then thread else thread - 1
  }

  function Futex1(thread: nat): nat { BaseIndex(thread) }

  function Futex2(thread: nat): nat { BaseIndex(thread) + 1 }

  // The futex a thread waits on, and the one through which it wakes its peer.
  function WaitsOn(thread: nat): nat {
    if RoleOf(thread).First? then Futex1(thread) else Futex2(thread)
  }

  function Wakes(thread: nat): nat {
    if RoleOf(thread).First? then Futex2(thread) else Futex1(thread)
  }

  // Every futex has exactly one waiter, and only the two threads of one pair touch it.
  lemma {:induction false} FutexesArePrivate(t: nat, u: nat)
    ensures WaitsOn(t) == t
    ensures Wakes(t) == u <==> Wakes(u) == t
    ensures Wakes(t) / 2 == t / 2 && Wakes(t) != t
    ensures {Futex1(t), Futex2(t)} == {t, Wakes(t)}
  {
    assert t % 2 == 0 || t % 2 == 1;
  }

  // ---------- the protocol of all threads ----------

  datatype State = State(term: bool, values: seq<bool>, pcs: seq<P.Pc>, counts: seq<nat>)

  datatype Event = RaiseTerm | Step(thread: nat) | Interrupt(thread: nat) | Spurious(thread: nat)

  predicate Sized(s: State, pairs: nat) {
    |s.values| == |s.pcs| == |s.counts| == 2 * pairs
  }

  function Init(pairs: nat): State {
    State(false, seq(2 * pairs, _ => false), seq(2 * pairs, _ => P.CheckTerm), seq(2 * pairs, _ => 0))
  }

  predicate Enabled(s: State, e: Event) {
    match e
    case RaiseTerm => true
    case Step(t) => t < |s.pcs| && !s.pcs[t].Asleep? && !s.pcs[t].Finished?
    case _ => e.thread < |s.pcs| && s.pcs[e.thread].Asleep?
  }

  // futex.wake(1): threads asleep on this futex leave their wait. There is at most one.
  function WakeOn(pcs: seq<P.Pc>, futex: nat): (r: seq<P.Pc>)
    ensures |r| == |pcs|
    ensures forall t :: 0 <= t < |pcs| ==> r[t] == if WaitsOn(t) == futex then P.Woken(pcs[t]) else pcs[t]
  {
    seq(|pcs|, t requires 0 <= t < |pcs| => if WaitsOn(t) == futex then P.Woken(pcs[t]) else pcs[t])
  }

  function Goto(s: State, t: nat, pc: P.Pc): State
    requires t < |s.pcs|
  {
    s.(pcs := s.pcs[t := pc])
  }

  function Store(s: State, futex: nat, value: bool): State {
    if futex < |s.values| then s.(values := s.values[futex := value]) else s
  }

  function WakeThen(s: State, futex: nat, t: nat, pc: P.Pc): State
    requires t < |s.pcs|
  {
    s.(pcs := WakeOn(s.pcs, futex)[t := pc])
  }

  function CountOne(s: State, t: nat): State
    requires t < |s.counts|
  {
    s.(counts := s.counts[t := s.counts[t] + 1])
  }

  function ThreadStep(s: State, t: nat): (r: State)
    requires |s.pcs| == |s.counts| == |s.values| && Enabled(s, Step(t))
    ensures |r.pcs| == |r.counts| == |r.values| == |s.pcs| && r.term == s.term
  {
    var first := RoleOf(t).First?;
    match s.pcs[t]
    case CheckTerm => Goto(s, t, if s.term then P.CancelStore1 else if first then P.WakeStore else P.Wait)
    case WakeStore => Goto(Store(s, Wakes(t), true), t, P.WakeCall)
    case WakeCall =>
      if first then WakeThen(s, Wakes(t), t, P.Wait)
      else CountOne(WakeThen(s, Wakes(t), t, P.CheckTerm), t)
    case Wait => Goto(s, t, if s.values[t] then P.Clear else P.Asleep)
    case Clear =>
      if first then CountOne(Goto(Store(s, WaitsOn(t), false), t, P.CheckTerm), t)
      else Goto(Store(s, WaitsOn(t), false), t, P.WakeStore)
    case CancelStore1 => Goto(Store(s, Futex1(t), true), t, P.CancelWake1)
    case CancelWake1 => WakeThen(s, Futex1(t), t, P.CancelStore2)
    case CancelStore2 => Goto(Store(s, Futex2(t), true), t, P.CancelWake2)
    case CancelWake2 => WakeThen(s, Futex2(t), t, P.Finished)
  }

  function Next(s: State, e: Event): State
    requires |s.pcs| == |s.counts| == |s.values| && Enabled(s, e)
  {
    match e
    case RaiseTerm => s.(term := true)
    case Step(t) => ThreadStep(s, t)
    case Interrupt(t) => Goto(s, t, P.Wait)
    case Spurious(t) => Goto(s, t, P.Clear)
  }

  ghost predicate Run(s: State, es: seq<Event>, t: State)
    decreases es
  {
    if es == [] then s == t
    else
      && |s.pcs| == |s.counts| == |s.values| && Enabled(s, es[0])
      && Run(Next(s, es[0]), es[1..], t)
  }

  // ---------- one pair's part of it ----------

  function PairOf(s: State, p: nat): P.State
    requires 2 * p + 1 < |s.pcs| && |s.pcs| == |s.counts| == |s.values|
  {
    P.State(s.term, s.values[2 * p], s.values[2 * p + 1],
            s.pcs[2 * p], s.pcs[2 * p + 1], s.counts[2 * p], s.counts[2 * p + 1])
  }

  // What pair p sees of an event: nothing, when it belongs to another pair.
  function EventOf(e: Event, p: nat): seq<P.Event> {
    match e
    case RaiseTerm => [P.RaiseTerm]
    case Step(t) => if t / 2 == p then [P.Step(RoleOf(t))] else []
    case Interrupt(t) => if t / 2 == p then [P.Interrupt(RoleOf(t))] else []
    case Spurious(t) => if t / 2 == p then [P.Spurious(RoleOf(t))] else []
  }

  function EventsOf(es: seq<Event>, p: nat): seq<P.Event> {
    if es == [] then [] else EventOf(es[0], p) + EventsOf(es[1..], p)
  }

  lemma NextKeepsSize(s: State, e: Event, pairs: nat)
    requires Sized(s, pairs) && Enabled(s, e)
    ensures Sized(Next(s, e), pairs)
  {
    hide ThreadStep;
  }

  lemma OwnStepFirst(s: State, pairs: nat, p: nat)
    requires Sized(s, pairs) && p < pairs && Enabled(s, Step(2 * p))
    ensures PairOf(ThreadStep(s, 2 * p), p) == P.StepFirst(PairOf(s, p))
  {
    FutexesArePrivate(2 * p, 0);
    FutexesArePrivate(2 * p + 1, 0);
  }

  lemma OwnStepSecond(s: State, pairs: nat, p: nat)
    requires Sized(s, pairs) && p < pairs && Enabled(s, Step(2 * p + 1))
    ensures PairOf(ThreadStep(s, 2 * p + 1), p) == P.StepSecond(PairOf(s, p))
  {
    FutexesArePrivate(2 * p, 0);
    FutexesArePrivate(2 * p + 1, 0);
  }

  lemma OwnStep(s: State, pairs: nat, p: nat, t: nat)
    requires Sized(s, pairs) && p < pairs && Enabled(s, Step(t)) && t / 2 == p
    ensures P.Enabled(PairOf(s, p), P.Step(RoleOf(t)))
    ensures PairOf(ThreadStep(s, t), p) == P.Next(PairOf(s, p), P.Step(RoleOf(t)))
  {
    hide ThreadStep;
    hide P.StepFirst;
    hide P.StepSecond;
    if t % 2 == 0 { OwnStepFirst(s, pairs, p); } else { OwnStepSecond(s, pairs, p); }
  }

  lemma OtherThread(s: State, t: nat, u: nat)
    requires |s.pcs| == |s.counts| == |s.values| && Enabled(s, Step(t))
    requires u < |s.pcs| && t / 2 != u / 2
    ensures ThreadStep(s, t).values[u] == s.values[u]
    ensures ThreadStep(s, t).pcs[u] == s.pcs[u]
    ensures ThreadStep(s, t).counts[u] == s.counts[u]
  {
    FutexesArePrivate(t, u);
    FutexesArePrivate(u, t);
    assert Futex1(t) in {Futex1(t), Futex2(t)} && Futex2(t) in {Futex1(t), Futex2(t)};
    assert Futex1(t) != u && Futex2(t) != u && Wakes(t) != u && WaitsOn(t) != u;
    hide WaitsOn;
    hide Wakes;
    hide Futex1;
    hide Futex2;
    hide RoleOf;
  }

  lemma OtherStep(s: State, pairs: nat, p: nat, t: nat)
    requires Sized(s, pairs) && p < pairs && Enabled(s, Step(t)) && t / 2 != p
    ensures PairOf(ThreadStep(s, t), p) == PairOf(s, p)
  {
    hide ThreadStep;
    OtherThread(s, t, 2 * p);
    OtherThread(s, t, 2 * p + 1);
  }

  lemma NextProjects(s: State, e: Event, pairs: nat, p: nat)
    requires Sized(s, pairs) && p < pairs && Enabled(s, e)
    ensures Sized(Next(s, e), pairs)
    ensures P.Run(PairOf(s, p), EventOf(e, p), PairOf(Next(s, e), p))
  {
    var own := EventOf(e, p);
    if e.Step? {
      if e.thread / 2 == p { OwnStep(s, pairs, p, e.thread); } else { OtherStep(s, pairs, p, e.thread); }
    }
    hide ThreadStep;
    hide P.StepFirst;
    hide P.StepSecond;
    if own != [] {
      assert own[1..] == [];
      assert P.Run(PairOf(Next(s, e), p), [], PairOf(Next(s, e), p));
    }
  }

  lemma {:induction false} PairRunsJoin(s: P.State, es: seq<P.Event>, m: P.State, fs: seq<P.Event>, t: P.State)
    requires P.Run(s, es, m) && P.Run(m, fs, t)
    ensures P.Run(s, es + fs, t)
    decreases es
  {
    hide P.Next;
    if es == [] {
      assert es + fs == fs;
    } else {
      PairRunsJoin(P.Next(s, es[0]), es[1..], m, fs, t);
      assert (es + fs)[1..] == es[1..] + fs;
    }
  }

  // Every run of all threads is, for each pair, a run of that pair alone.
  lemma {:induction false} RunProjects(s: State, es: seq<Event>, t: State, pairs: nat, p: nat)
    requires Sized(s, pairs) && p < pairs && Run(s, es, t)
    ensures Sized(t, pairs) && P.Run(PairOf(s, p), EventsOf(es, p), PairOf(t, p))
    decreases es
  {
    hide Next;
    hide Enabled;
    hide P.Next;
    if es == [] {
      assert P.Run(PairOf(s, p), [], PairOf(t, p));
    } else {
      NextProjects(s, es[0], pairs, p);
      RunProjects(Next(s, es[0]), es[1..], t, pairs, p);
      PairRunsJoin(PairOf(s, p), EventOf(es[0], p), PairOf(Next(s, es[0]), p), EventsOf(es[1..], p), PairOf(t, p));
    }
  }

  // ---------- safety and termination of the whole run ----------

  predicate AllFinished(s: State) {
    forall t :: 0 <= t < |s.pcs| ==> s.pcs[t].Finished?
  }

  // No interleaving of all threads leaves a pair stuck: some thread of every unfinished pair
  // can take its next step.
  lemma {:induction false} NoPairStuck(pairs: nat, es: seq<Event>, s: State, p: nat)
    requires Run(Init(pairs), es, s) && p < pairs
    ensures Sized(s, pairs)
    ensures (s.pcs[2 * p].Finished? && s.pcs[2 * p + 1].Finished?)
         || Enabled(s, Step(2 * p)) || Enabled(s, Step(2 * p + 1))
  {
    RunProjects(Init(pairs), es, s, pairs, p);
    hide P.Run;
    P.NoLostWakeup(EventsOf(es, p), PairOf(s, p));
  }

  function Ranks(s: State, pairs: nat): seq<nat>
    requires Sized(s, pairs)
  {
    seq(pairs, p requires 0 <= p < pairs => P.Rank(PairOf(s, p)))
  }

  function Interrupts(es: seq<Event>): nat {
    if es == [] then 0 else (if es[0].Interrupt? then 1 else 0) + Interrupts(es[1..])
  }

  function Steps(es: seq<Event>): nat {
    if es == [] then 0 else (if es[0].Step? then 1 else 0) + Steps(es[1..])
  }

  lemma NextChangesRank(s: State, e: Event, pairs: nat, p: nat)
    requires Sized(s, pairs) && p < pairs && Enabled(s, e) && s.term
    ensures Sized(Next(s, e), pairs) && Next(s, e).term
    ensures e.RaiseTerm? || e.thread / 2 != p ==> P.Rank(PairOf(Next(s, e), p)) == P.Rank(PairOf(s, p))
    ensures e.Interrupt? && e.thread / 2 == p ==> P.Rank(PairOf(Next(s, e), p)) == P.Rank(PairOf(s, p)) + 1
    ensures (e.Step? || e.Spurious?) && e.thread / 2 == p ==> P.Rank(PairOf(Next(s, e), p)) < P.Rank(PairOf(s, p))
  {
    NextProjects(s, e, pairs, p);
    TermStays(s, e);
    hide Next;
    hide P.Next;
    hide P.Remaining;
    hide P.Rank;
    var own := EventOf(e, p);
    if own == [] {
      assert PairOf(Next(s, e), p) == PairOf(s, p);
    } else {
      assert own[1..] == [];
      assert P.Next(PairOf(s, p), own[0]) == PairOf(Next(s, e), p);
      P.NextDecreasesRank(PairOf(s, p), own[0]);
    }
  }

  lemma TermStays(s: State, e: Event)
    requires |s.pcs| == |s.counts| == |s.values| && Enabled(s, e) && s.term
    ensures Next(s, e).term
  {}

  lemma RanksAfter(s: State, e: Event, pairs: nat)
    requires Sized(s, pairs) && Enabled(s, e) && s.term
    ensures Sized(Next(s, e), pairs) && Next(s, e).term
    ensures Sum(Ranks(Next(s, e), pairs)) + (if e.Step? || e.Spurious? then 1 else 0)
            <= Sum(Ranks(s, pairs)) + (if e.Interrupt? then 1 else 0)
  {
    NextKeepsSize(s, e, pairs);
    TermStays(s, e);
    var t := Next(s, e);
    var before, after := Ranks(s, pairs), Ranks(t, pairs);
    forall p | 0 <= p < pairs
      ensures e.RaiseTerm? || e.thread / 2 != p ==> after[p] == before[p]
    {
      NextChangesRank(s, e, pairs, p);
    }
    hide *;
    if e.RaiseTerm? {
      assert after == before;
    } else {
      var p := e.thread / 2;
      OwnPair(s, e, pairs);
      NextChangesRank(s, e, pairs, p);
      SumUpdate(before, p, after[p]);
      assert |after| == |before| == pairs;
      assert after == before[p := after[p]];
    }
  }

  lemma OwnPair(s: State, e: Event, pairs: nat)
    requires Sized(s, pairs) && Enabled(s, e) && !e.RaiseTerm?
    ensures e.thread / 2 < pairs
  {}

  lemma {:induction false} RunRanks(s: State, es: seq<Event>, t: State, pairs: nat)
    requires Sized(s, pairs) && s.term && Run(s, es, t)
    ensures Sized(t, pairs) && Steps(es) + Sum(Ranks(t, pairs)) <= Sum(Ranks(s, pairs)) + Interrupts(es)
    decreases es
  {
    hide Next;
    hide Enabled;
    hide Ranks;
    if es != [] {
      RanksAfter(s, es[0], pairs);
      RunRanks(Next(s, es[0]), es[1..], t, pairs);
    }
  }

  // Once the flag is up, all threads together take at most 20 steps per pair and one more per
  // interrupted wait.
  lemma {:induction false} TerminationBound(s: State, es: seq<Event>, t: State, pairs: nat)
    requires Sized(s, pairs) && s.term && Run(s, es, t)
    ensures Steps(es) <= 20 * pairs + Interrupts(es)
  {
    RunRanks(s, es, t, pairs);
    SumAtMost(Ranks(s, pairs), 20);
  }

  // Of the counts that run() adds up, those of a pair stay within a factor of two and one more
  // of each other, or two more for the second while the first has not returned, when no wait
  // returns by itself.
  lemma {:induction false} CountsStayClose(pairs: nat, es: seq<Event>, s: State, p: nat)
    requires Run(Init(pairs), es, s) && p < pairs && forall e :: e in es ==> !e.Spurious?
    ensures Sized(s, pairs)
    ensures s.counts[2 * p] <= 2 * s.counts[2 * p + 1] + 1
    ensures s.counts[2 * p + 1] <= 2 * s.counts[2 * p] + if s.pcs[2 * p].Finished? then 1 else 2
  {
    RunProjects(Init(pairs), es, s, pairs, p);
    hide P.Run;
    P.CountsWithinFactorTwo(EventsOf(es, p), PairOf(s, p));
    NoneSpurious(es, p);
    P.NoneSpurious(EventsOf(es, p), P.First);
    P.NoneSpurious(EventsOf(es, p), P.Second);
  }

  lemma {:induction false} NoneSpurious(es: seq<Event>, p: nat)
    requires forall e :: e in es ==> !e.Spurious?
    ensures P.NoSpurious(EventsOf(es, p))
  {
    if es != [] {
      assert !es[0].Spurious?;
      NoneSpurious(es[1..], p);
    }
  }

  // ---------- the threads themselves ----------

  lemma {:induction false} RunSnoc(s: State, es: seq<Event>, m: State, e: Event)
    requires Run(s, es, m) && |m.pcs| == |m.counts| == |m.values| && Enabled(m, e)
    ensures Run(s, es + [e], Next(m, e))
    decreases es
  {
    hide Next;
    hide Enabled;
    if es == [] {
      assert Run(Next(m, e), [e][1..], Next(m, e));
    } else {
      RunSnoc(Next(s, es[0]), es[1..], m, e);
      assert (es + [e])[1..] == es[1..] + [e];
    }
  }

  class Threads {
    const pairs: nat
    var term: bool
    var values: seq<bool>
    var pcs: seq<P.Pc>
    var counts: seq<nat>

    ghost function Abs(): State
      reads this
    {
      State(term, values, pcs, counts)
    }

    ghost predicate Valid()
      reads this
    {
      Sized(Abs(), pairs)
    }

    constructor (pairs: nat)
      ensures this.pairs == pairs && Valid() && Abs() == Init(pairs)
    {
      this.pairs := pairs;
      term := false;
      values := seq(2 * pairs, _ => false);
      pcs := seq(2 * pairs, _ => P.CheckTerm);
      counts := seq(2 * pairs, _ => 0);
    }

    predicate CanStep(e: Event)
      reads this
      ensures CanStep(e) == Enabled(Abs(), e)
    {
      Enabled(State(term, values, pcs, counts), e)
    }

    method TakeStep(e: Event)
      requires Valid() && Enabled(Abs(), e)
      modifies this
      ensures Valid() && Abs() == Next(old(Abs()), e)
    {
      if e.RaiseTerm? {
        term := true;
      } else if e.Step? {
        TakeThreadStep(e.thread);
      } else {
        pcs := pcs[e.thread := if e.Interrupt? then P.Wait else P.Clear];
      }
    }

    // The next atomic step of one thread.
    method TakeThreadStep(t: nat)
      requires Valid() && Enabled(Abs(), Step(t))
      modifies this
      ensures Valid() && Abs() == ThreadStep(old(Abs()), t)
    {
      FutexesArePrivate(t, 0);
      assert Wakes(t) < |values| && Futex1(t) < |values| && Futex2(t) < |values|;
      var first := RoleOf(t).First?;
      hide WaitsOn;
      hide Wakes;
      hide Futex1;
      hide Futex2;
      hide RoleOf;
      hide WakeOn;
      match pcs[t]
      case CheckTerm =>
        pcs := pcs[t := if term then P.CancelStore1 else if first then P.WakeStore else P.Wait];
      case WakeStore =>
        values := values[Wakes(t) := true];
        pcs := pcs[t := P.WakeCall];
      case WakeCall =>
        Wake(Wakes(t));
        pcs := pcs[t := if first then P.Wait else P.CheckTerm];
        if !first { counts := counts[t := counts[t] + 1]; }
      case Wait =>
        pcs := pcs[t := if values[t] then P.Clear else P.Asleep];
      case Clear =>
        values := values[t := false];
        pcs := pcs[t := if first then P.CheckTerm else P.WakeStore];
        if first { counts := counts[t := counts[t] + 1]; }
      case CancelStore1 => TakeCancelStep(t);
      case CancelWake1 => TakeCancelStep(t);
      case CancelStore2 => TakeCancelStep(t);
      case CancelWake2 => TakeCancelStep(t);
    }

    // on_cancelled: wake either side, whichever this thread is.
    method TakeCancelStep(t: nat)
      requires Valid() && Enabled(Abs(), Step(t))
      requires pcs[t].CancelStore1? || pcs[t].CancelWake1? || pcs[t].CancelStore2? || pcs[t].CancelWake2?
      modifies this`values, this`pcs
      ensures Valid() && Abs() == ThreadStep(old(Abs()), t)
    {
      FutexesArePrivate(t, 0);
      assert Futex1(t) < |values| && Futex2(t) < |values|;
      hide WaitsOn;
      hide Wakes;
      hide Futex1;
      hide Futex2;
      hide RoleOf;
      hide WakeOn;
      match pcs[t]
      case CancelStore1 =>
        values := values[Futex1(t) := true];
        pcs := pcs[t := P.CancelWake1];
      case CancelWake1 =>
        Wake(Futex1(t));
        pcs := pcs[t := P.CancelStore2];
      case CancelStore2 =>
        values := values[Futex2(t) := true];
        pcs := pcs[t := P.CancelWake2];
      case CancelWake2 =>
        Wake(Futex2(t));
        pcs := pcs[t := P.Finished];
    }

    // Only the thread with the futex's own index can be asleep on it.
    method Wake(futex: nat)
      requires futex < |pcs|
      modifies this`pcs
      ensures pcs == WakeOn(old(pcs), futex)
    {
      forall t | 0 <= t < |pcs| ensures WaitsOn(t) == t { FutexesArePrivate(t, 0); }
      pcs := pcs[futex := P.Woken(pcs[futex])];
    }

    // A thread that can go on, or none if all have returned.
    method FindRunnable(ghost es: seq<Event>) returns (t: nat)
      requires Valid() && Run(Init(pairs), es, Abs())
      ensures t <= |pcs|
      ensures t < |pcs| ==> Enabled(Abs(), Step(t))
      ensures t == |pcs| ==> AllFinished(Abs())
    {
      t := 0;
      while t < |pcs| && !CanStep(Step(t))
        invariant t <= |pcs|
        invariant forall u :: 0 <= u < t ==> !Enabled(Abs(), Step(u))
        decreases |pcs| - t
      {
        t := t + 1;
      }
      if t == |pcs| {
        forall u | 0 <= u < |pcs|
          ensures pcs[u].Finished?
        {
          NoPairStuck(pairs, es, Abs(), u / 2);
          assert u == 2 * (u / 2) || u == 2 * (u / 2) + 1;
        }
      }
    }

    // run() over all pairs: the flag goes up at time raiseAt and waits are interrupted finitely
    // often. Under every schedule all threads return, and the result adds up their counts.
    method RunAll(raiseAt: nat, interruptions: nat, schedule: nat -> Event)
        returns (total: nat, ghost es: seq<Event>)
      requires Valid() && Abs() == Init(pairs)
      modifies this
      ensures Valid() && Run(Init(pairs), es, Abs()) && AllFinished(Abs())
      ensures total == Sum(counts)
    {
      hide Ranks;
      hide Next;
      hide Enabled;
      es := [];
      var now, budget := 0, interruptions;
      var runnable: nat := FindRunnable(es);
      while runnable < |pcs| || !term
        invariant Valid() && Run(Init(pairs), es, Abs())
        invariant runnable <= |pcs|
        invariant runnable < |pcs| ==> Enabled(Abs(), Step(runnable))
        invariant runnable == |pcs| ==> AllFinished(Abs())
        decreases if term then 0 else 1, if term then 0 else raiseAt - now, Sum(Ranks(Abs(), pairs)) + 2 * budget
      {
        ghost var before := Abs();
        var e := schedule(now);
        if !term && (now >= raiseAt || e.RaiseTerm? || runnable == |pcs|) {
          e := RaiseTerm;
          RaiseIsEnabled();
        } else if e.RaiseTerm? || !CanStep(e) || (e.Interrupt? && budget == 0) {
          e := Step(runnable);
        } else if e.Interrupt? {
          budget := budget - 1;
        }
        TakeStep(e);
        if before.term { RanksAfter(before, e, pairs); }
        TermOnlyRises(before, e);
        RunSnoc(Init(pairs), es, before, e);
        es := es + [e];
        now := now + 1;
        runnable := FindRunnable(es);
      }
      total := JoinCounts();
    }

    // Each joined thread adds its count.
    method JoinCounts() returns (total: nat)
      ensures total == Sum(counts)
    {
      total := 0;
      for t := 0 to |counts|
        invariant total == Sum(counts[..t])
      {
        SumOfAppend(counts[..t], counts[t]);
        assert counts[..t + 1] == counts[..t] + [counts[t]];
        total := total + counts[t];
      }
      assert counts[..|counts|] == counts;
    }

    lemma RaiseIsEnabled()
      ensures Enabled(Abs(), RaiseTerm)
    {}
  }

  lemma TermOnlyRises(s: State, e: Event)
    requires |s.pcs| == |s.counts| == |s.values| && Enabled(s, e)
    ensures Next(s, e).term == (s.term || e.RaiseTerm?)
  {}
}
