/**
 One pair of threads handing a token back and forth through two futexes, and the
 protocol by which either thread, having seen the termination flag, releases the other.

 The store into a futex word, the wake call, the compare-and-sleep of `wait` and the
 store that clears the word are four separate atomic steps; the two threads interleave
 step by step, and the flag may be raised between any two steps.
 */
module FutexProtocol {

  datatype Worker = First | Second

  // Program points of one thread. The thread loop is CheckTerm; one_iteration is
  // WakeStore..WakeCall and Wait..Clear in the order its role prescribes; on_cancelled
  // is CancelStore1..CancelWake2.
  datatype Pc =
    | CheckTerm
    | WakeStore | WakeCall
    | Wait | Asleep | Clear
    | CancelStore1 | CancelWake1 | CancelStore2 | CancelWake2
    | Finished

  // value1 and value2 tell whether the futex words hold 1. The first thread waits on
  // futex 1 and wakes futex 2; the second thread does the opposite.
  datatype State = State(
    term: bool,
    value1: bool, value2: bool,
    pc1: Pc, pc2: Pc,
    count1: nat, count2: nat)

  // What can happen next: the flag is raised, a thread takes its next step, a sleeping
  // thread's wait is interrupted (and retried), or it returns without having been woken.
  datatype Event = RaiseTerm | Step(w: Worker) | Interrupt(w: Worker) | Spurious(w: Worker)

  function Init(): State {
    State(false, false, false, CheckTerm, CheckTerm, 0, 0)
  }

  function PcOf(s: State, w: Worker): Pc {
    if w.First? then s.pc1 else s.pc2
  }

  predicate Enabled(s: State, e: Event) {
    match e
    case RaiseTerm => true
    case Step(w) => !PcOf(s, w).Asleep? && !PcOf(s, w).Finished?
    case Interrupt(w) => PcOf(s, w).Asleep?
    case Spurious(w) => PcOf(s, w).Asleep?
  }

  // futex.wake(1): the thread asleep on the futex, if any, leaves its wait.
  function Woken(pc: Pc): Pc {
    if pc.Asleep? then Clear else pc
  }

  function StepFirst(s: State): State
    requires Enabled(s, Step(First))
  {
    match s.pc1
    case CheckTerm => s.(pc1 := if s.term then CancelStore1 else WakeStore)
    case WakeStore => s.(value2 := true, pc1 := WakeCall)
    case WakeCall => s.(pc2 := Woken(s.pc2), pc1 := Wait)
    case Wait => s.(pc1 := if s.value1 then Clear else Asleep)
    case Clear => s.(value1 := false, count1 := s.count1 + 1, pc1 := CheckTerm)
    case CancelStore1 => s.(value1 := true, pc1 := CancelWake1)
    case CancelWake1 => s.(pc1 := CancelStore2)
    case CancelStore2 => s.(value2 := true, pc1 := CancelWake2)
    case CancelWake2 => s.(pc2 := Woken(s.pc2), pc1 := Finished)
  }

  function StepSecond(s: State): State
    requires Enabled(s, Step(Second))
  {
    match s.pc2
    case CheckTerm => s.(pc2 := if s.term then CancelStore1 else Wait)
    case Wait => s.(pc2 := if s.value2 then Clear else Asleep)
    case Clear => s.(value2 := false, pc2 := WakeStore)
    case WakeStore => s.(value1 := true, pc2 := WakeCall)
    case WakeCall => s.(pc1 := Woken(s.pc1), count2 := s.count2 + 1, pc2 := CheckTerm)
    case CancelStore1 => s.(value1 := true, pc2 := CancelWake1)
    case CancelWake1 => s.(pc1 := Woken(s.pc1), pc2 := CancelStore2)
    case CancelStore2 => s.(value2 := true, pc2 := CancelWake2)
    case CancelWake2 => s.(pc2 := Finished)
  }

  function Next(s: State, e: Event): State
    requires Enabled(s, e)
  {
    match e
    case RaiseTerm => s.(term := true)
    case Step(First) => StepFirst(s)
    case Step(Second) => StepSecond(s)
    case Interrupt(First) => s.(pc1 := Wait)
    case Interrupt(Second) => s.(pc2 := Wait)
    case Spurious(First) => s.(pc1 := Clear)
    case Spurious(Second) => s.(pc2 := Clear)
  }

  // A run: the events of es happen one after the other, each when enabled.
  ghost predicate Run(s: State, es: seq<Event>, t: State)
    decreases es
  {
    if es == [] then s == t else Enabled(s, es[0]) && Run(Next(s, es[0]), es[1..], t)
  }

  // ---------- the invariant ----------

  predicate Cancelling(pc: Pc) {
    pc.CancelStore1? || pc.CancelWake1? || pc.CancelStore2? || pc.CancelWake2? || pc.Finished?
  }

  // The canceller has put 1 into futex 1 (respectively futex 2).
  predicate Signalled1(pc: Pc) { Cancelling(pc) && !pc.CancelStore1? }
  predicate Signalled2(pc: Pc) { pc.CancelWake2? || pc.Finished? }

  ghost predicate Inv(s: State) {
    // only a thread that saw the flag cancels
    && (Cancelling(s.pc1) || Cancelling(s.pc2) ==> s.term)
    // a thread asleep on a word holding 1 is about to be woken
    && (s.pc1.Asleep? && s.value1 ==> s.pc2.WakeCall? || s.pc2.CancelWake1?)
    && (s.pc2.Asleep? && s.value2 ==> s.pc1.WakeCall? || s.pc1.CancelWake2?)
    // the token: between handing over and waiting, one of the two words holds 1
    && ((s.pc1.WakeCall? || s.pc1.Wait? || s.pc1.Asleep?)
        && (s.pc2.WakeCall? || s.pc2.CheckTerm? || s.pc2.Wait? || s.pc2.Asleep?)
        ==> s.value1 || s.value2)
    // a cancel signal stays in the word for as long as the peer may still wait on it
    && (Signalled1(s.pc2)
        && (s.pc1.WakeStore? || s.pc1.WakeCall? || s.pc1.Wait? || s.pc1.Asleep?)
        ==> s.value1)
    && (Signalled2(s.pc1) && (s.pc2.Wait? || s.pc2.Asleep?) ==> s.value2)
  }

  lemma FirstKeepsInv(s: State)
    requires Inv(s) && Enabled(s, Step(First))
    ensures Inv(StepFirst(s))
  {
  }

  lemma SecondKeepsInv(s: State)
    requires Inv(s) && Enabled(s, Step(Second))
    ensures Inv(StepSecond(s))
  {
  }

  lemma NextKeepsInv(s: State, e: Event)
    requires Inv(s) && Enabled(s, e)
    ensures Inv(Next(s, e))
  {
    hide StepFirst;
    hide StepSecond;
    match e
    case Step(First) => FirstKeepsInv(s);
    case Step(Second) => SecondKeepsInv(s);
    case _ =>
  }

  lemma {:induction false} RunKeepsInv(s: State, es: seq<Event>, t: State)
    requires Inv(s) && Run(s, es, t)
    ensures Inv(t)
    decreases es
  {
    if es != [] {
      NextKeepsInv(s, es[0]);
      RunKeepsInv(Next(s, es[0]), es[1..], t);
    }
  }

  // ---------- no lost wake-up ----------

  // No interleaving leaves both threads asleep, or one asleep after the other returned:
  // until both have returned, some thread can take a step of its own.
  lemma {:induction false} NoLostWakeup(es: seq<Event>, s: State)
    requires Run(Init(), es, s)
    ensures !(s.pc1.Asleep? && s.pc2.Asleep?)
    ensures !(s.pc1.Asleep? && s.pc2.Finished?) && !(s.pc1.Finished? && s.pc2.Asleep?)
    ensures (s.pc1.Finished? && s.pc2.Finished?) || Enabled(s, Step(First)) || Enabled(s, Step(Second))
  {
    RunKeepsInv(Init(), es, s);
  }

  // The thread w will never again wait for its peer: it is past its wait and the flag is up.
  predicate PastLastWait(s: State, w: Worker) {
    s.term && !PcOf(s, w).Wait? && !PcOf(s, w).Asleep? &&
    (w.First? ==> !s.pc1.WakeStore? && !s.pc1.WakeCall?)
  }

  lemma NextKeepsPastLastWait(s: State, e: Event, w: Worker)
    requires PastLastWait(s, w) && Enabled(s, e)
    ensures PastLastWait(Next(s, e), w)
  {
  }

  // A cancel signal may be erased by the clearing store of a peer that is just leaving its
  // wait. Whatever happens next, that peer never waits again: its next check of the flag
  // sees true.
  lemma {:induction false} ErasedSignalIsNotNeeded(before: seq<Event>, s: State, w: Worker, after: seq<Event>, t: State)
    requires Run(Init(), before, s)
    requires PcOf(s, w).Clear? && Cancelling(if w.First? then s.pc2 else s.pc1)
    requires Run(s, after, t)
    ensures !PcOf(t, w).Wait? && !PcOf(t, w).Asleep?
    ensures PcOf(t, w).CheckTerm? ==> PcOf(Next(t, Step(w)), w).CancelStore1?
  {
    RunKeepsInv(Init(), before, s);
    RunKeepsPastLastWait(s, after, t, w);
  }

  lemma {:induction false} RunKeepsPastLastWait(s: State, es: seq<Event>, t: State, w: Worker)
    requires PastLastWait(s, w) && Run(s, es, t)
    ensures PastLastWait(t, w)
    decreases es
  {
    if es != [] {
      NextKeepsPastLastWait(s, es[0], w);
      RunKeepsPastLastWait(Next(s, es[0]), es[1..], t, w);
    }
  }

  // ---------- termination ----------

  // Steps thread w still has to take once the flag is up, given its program point.
  function Remaining(pc: Pc, w: Worker): (n: nat)
    ensures n <= 10
  {
    match pc
    case Finished => 0
    case CancelWake2 => 1
    case CancelStore2 => 2
    case CancelWake1 => 3
    case CancelStore1 => 4
    case CheckTerm => 5
    case WakeStore => if w.First? then 10 else 7
    case WakeCall => if w.First? then 9 else 6
    case Wait => if w.First? then 8 else 10
    case Asleep => if w.First? then 7 else 9
    case Clear => if w.First? then 6 else 8
  }

  function Rank(s: State): nat {
    Remaining(s.pc1, First) + Remaining(s.pc2, Second)
  }

  lemma FirstDecreasesRank(s: State)
    requires s.term && Enabled(s, Step(First))
    ensures StepFirst(s).term && Rank(StepFirst(s)) < Rank(s)
  {
  }

  lemma SecondDecreasesRank(s: State)
    requires s.term && Enabled(s, Step(Second))
    ensures StepSecond(s).term && Rank(StepSecond(s)) < Rank(s)
  {
  }

  lemma NextDecreasesRank(s: State, e: Event)
    requires s.term && Enabled(s, e)
    ensures Next(s, e).term
    ensures match e
            case RaiseTerm => Rank(Next(s, e)) == Rank(s)
            case Interrupt(_) => Rank(Next(s, e)) == Rank(s) + 1
            case _ => Rank(Next(s, e)) < Rank(s)
  {
    hide StepFirst;
    hide StepSecond;
    match e
    case Step(First) => FirstDecreasesRank(s);
    case Step(Second) => SecondDecreasesRank(s);
    case _ =>
  }

  function Interrupts(es: seq<Event>): nat {
    if es == [] then 0 else (if es[0].Interrupt? then 1 else 0) + Interrupts(es[1..])
  }

  function Steps(es: seq<Event>): nat {
    if es == [] then 0 else (if es[0].Step? then 1 else 0) + Steps(es[1..])
  }

  // Once the flag is up, every run is short: at most 20 steps of the two threads, plus one
  // per interrupted wait. With NoLostWakeup, both threads return under every schedule.
  lemma {:induction false} TerminationBound(s: State, es: seq<Event>, t: State)
    requires s.term && Run(s, es, t)
    ensures Steps(es) + Rank(t) <= Rank(s) + Interrupts(es) <= 20 + Interrupts(es)
    decreases es
  {
    hide Next;
    hide Remaining;
    if es != [] {
      NextDecreasesRank(s, es[0]);
      TerminationBound(Next(s, es[0]), es[1..], t);
    }
  }

  // ---------- the counts ----------

  function SpuriousWakes(es: seq<Event>, w: Worker): nat {
    if es == [] then 0 else (if es[0] == Spurious(w) then 1 else 0) + SpuriousWakes(es[1..], w)
  }

  // Releases of a thread beyond two per iteration of its peer: the store and the wake call of
  // one hand-over can each release one wait, those of a cancellation together only one.
  function Credit1(pc2: Pc): nat {
    if pc2.WakeCall? || Signalled1(pc2) then 1 else 0
  }

  function Credit2(pc1: Pc): nat {
    if pc1.WakeCall? then 1
    else if pc1.Wait? || pc1.Asleep? || pc1.Clear? then 2
    else if Signalled2(pc1) then 1
    else 0
  }

  function Releases1(s: State): nat {
    s.count1 + if Cancelling(s.pc1) then 0 else if s.pc1.Clear? || s.value1 then 1 else 0
  }

  function Releases2(s: State): nat {
    s.count2 + if Cancelling(s.pc2) then 0
               else if s.pc2.WakeStore? || s.pc2.WakeCall? then 1 + (if s.value2 then 1 else 0)
               else if s.pc2.Clear? || s.value2 then 1 else 0
  }

  ghost predicate CountInv(s: State, spurious1: nat, spurious2: nat) {
    && Releases1(s) <= 2 * s.count2 + Credit1(s.pc2) + spurious1
    && Releases2(s) <= 2 * s.count1 + Credit2(s.pc1) + spurious2
  }

  lemma NextKeepsCountInv(s: State, e: Event, n1: nat, n2: nat)
    requires Inv(s) && CountInv(s, n1, n2) && Enabled(s, e)
    ensures CountInv(Next(s, e), n1 + (if e == Spurious(First) then 1 else 0),
                                 n2 + (if e == Spurious(Second) then 1 else 0))
  {
    match e
    case Step(First) => { FirstKeepsReleases1(s, n1); FirstKeepsReleases2(s, n2); }
    case Step(Second) => { SecondKeepsReleases1(s, n1); SecondKeepsReleases2(s, n2); }
    case _ =>
  }

  lemma FirstKeepsReleases1(s: State, n: nat)
    requires Inv(s) && Releases1(s) <= 2 * s.count2 + Credit1(s.pc2) + n && Enabled(s, Step(First))
    ensures var t := StepFirst(s); Releases1(t) <= 2 * t.count2 + Credit1(t.pc2) + n
  {
  }

  lemma FirstKeepsReleases2(s: State, n: nat)
    requires Inv(s) && Releases2(s) <= 2 * s.count1 + Credit2(s.pc1) + n && Enabled(s, Step(First))
    ensures var t := StepFirst(s); Releases2(t) <= 2 * t.count1 + Credit2(t.pc1) + n
  {
  }

  lemma SecondKeepsReleases1(s: State, n: nat)
    requires Inv(s) && Releases1(s) <= 2 * s.count2 + Credit1(s.pc2) + n && Enabled(s, Step(Second))
    ensures var t := StepSecond(s); Releases1(t) <= 2 * t.count2 + Credit1(t.pc2) + n
  {
  }

  lemma SecondKeepsReleases2(s: State, n: nat)
    requires Inv(s) && Releases2(s) <= 2 * s.count1 + Credit2(s.pc1) + n && Enabled(s, Step(Second))
    ensures var t := StepSecond(s); Releases2(t) <= 2 * t.count1 + Credit2(t.pc1) + n
  {
  }

  lemma {:induction false} RunKeepsCountInv(s: State, es: seq<Event>, t: State, n1: nat, n2: nat)
    requires Inv(s) && CountInv(s, n1, n2) && Run(s, es, t)
    ensures CountInv(t, n1 + SpuriousWakes(es, First), n2 + SpuriousWakes(es, Second))
    decreases es
  {
    if es != [] {
      var m1 := n1 + if es[0] == Spurious(First) then 1 else 0;
      var m2 := n2 + if es[0] == Spurious(Second) then 1 else 0;
      NextKeepsInv(s, es[0]);
      NextKeepsCountInv(s, es[0], n1, n2);
      RunKeepsCountInv(Next(s, es[0]), es[1..], t, m1, m2);
    }
  }

  // Neither thread completes more than two iterations per iteration of its peer, but for one
  // more, and for the second thread two while the run goes on.
  lemma {:induction false} CountsWithinFactorTwo(es: seq<Event>, s: State)
    requires Run(Init(), es, s)
    ensures s.count1 <= 2 * s.count2 + 1 + SpuriousWakes(es, First)
    ensures s.count2 <= 2 * s.count1 + 2 + SpuriousWakes(es, Second)
    ensures s.pc1.Finished? ==> s.count2 <= 2 * s.count1 + 1 + SpuriousWakes(es, Second)
  {
    RunKeepsCountInv(Init(), es, s, 0, 0);
  }

  // ---------- exactly which counts a run can end with ----------

  // No wait returns by itself.
  predicate NoSpurious(es: seq<Event>) {
    forall e :: e in es ==> !e.Spurious?
  }

  // Puts one event in front of a run.
  lemma RunStep(s: State, e: Event, es: seq<Event>, t: State) returns (fs: seq<Event>)
    requires !e.Spurious? && Enabled(s, e) && Run(Next(s, e), es, t) && NoSpurious(es)
    ensures Run(s, fs, t) && NoSpurious(fs)
  {
    fs := [e] + es;
    assert fs[1..] == es;
  }

  // Both threads between two iterations.
  function Between(value1: bool, value2: bool, a: nat, b: nat): State {
    State(false, value1, value2, CheckTerm, CheckTerm, a, b)
  }

  // One lap, built from its end backwards, in which each thread goes round once.
  lemma LapOfBoth(a: nat, b: nat, tail: seq<Event>, u: State) returns (es: seq<Event>)
    requires Run(Between(false, false, a + 1, b + 1), tail, u) && NoSpurious(tail)
    ensures Run(Between(false, false, a, b), es, u) && NoSpurious(es)
  {
    hide Run;
    hide NoSpurious;
    es := tail;
    es := RunStep(State(false, true, false, Clear, CheckTerm, a, b + 1), Step(First), es, u);
    es := RunStep(State(false, true, false, Wait, CheckTerm, a, b + 1), Step(First), es, u);
    es := RunStep(State(false, true, false, Wait, WakeCall, a, b), Step(Second), es, u);
    es := FirstHandsOver(false, a, b, es, u);
  }

  // How every lap of the first thread begins, up to the store of the second into futex 1.
  lemma FirstHandsOver(value2: bool, a: nat, b: nat, tail: seq<Event>, u: State) returns (es: seq<Event>)
    requires Run(State(false, true, false, Wait, WakeCall, a, b), tail, u) && NoSpurious(tail)
    ensures Run(Between(false, value2, a, b), es, u) && NoSpurious(es)
  {
    hide Run;
    hide NoSpurious;
    es := tail;
    es := RunStep(State(false, false, false, Wait, WakeStore, a, b), Step(Second), es, u);
    es := RunStep(State(false, false, true, Wait, Clear, a, b), Step(Second), es, u);
    es := RunStep(State(false, false, true, Wait, Wait, a, b), Step(Second), es, u);
    es := RunStep(State(false, false, true, Wait, CheckTerm, a, b), Step(Second), es, u);
    es := RunStep(State(false, false, true, WakeCall, CheckTerm, a, b), Step(First), es, u);
    es := RunStep(State(false, false, value2, WakeStore, CheckTerm, a, b), Step(First), es, u);
    es := RunStep(Between(false, value2, a, b), Step(First), es, u);
  }

  // One lap in which a late wake call lets the first thread through twice.
  lemma LapOfFirst(value2: bool, a: nat, b: nat, tail: seq<Event>, u: State) returns (es: seq<Event>)
    requires Run(Between(false, true, a + 2, b + 1), tail, u) && NoSpurious(tail)
    ensures Run(Between(false, value2, a, b), es, u) && NoSpurious(es)
  {
    hide Run;
    hide NoSpurious;
    es := tail;
    es := RunStep(State(false, false, true, Clear, CheckTerm, a + 1, b + 1), Step(First), es, u);
    es := RunStep(State(false, false, true, Asleep, WakeCall, a + 1, b), Step(Second), es, u);
    es := RunStep(State(false, false, true, Wait, WakeCall, a + 1, b), Step(First), es, u);
    es := RunStep(State(false, false, true, WakeCall, WakeCall, a + 1, b), Step(First), es, u);
    es := RunStep(State(false, false, false, WakeStore, WakeCall, a + 1, b), Step(First), es, u);
    es := RunStep(State(false, false, false, CheckTerm, WakeCall, a + 1, b), Step(First), es, u);
    es := RunStep(State(false, true, false, Clear, WakeCall, a, b), Step(First), es, u);
    es := RunStep(State(false, true, false, Wait, WakeCall, a, b), Step(First), es, u);
    es := FirstHandsOver(value2, a, b, es, u);
  }

  // One lap in which it is the second thread that a late wake call lets through twice.
  lemma LapOfSecond(value1: bool, a: nat, b: nat, tail: seq<Event>, u: State) returns (es: seq<Event>)
    requires Run(Between(true, false, a + 1, b + 2), tail, u) && NoSpurious(tail)
    ensures Run(Between(value1, false, a, b), es, u) && NoSpurious(es)
  {
    hide Run;
    hide NoSpurious;
    es := tail;
    es := RunStep(State(false, true, false, CheckTerm, WakeCall, a + 1, b + 1), Step(Second), es, u);
    es := RunStep(State(false, false, false, CheckTerm, WakeStore, a + 1, b + 1), Step(Second), es, u);
    es := RunStep(State(false, false, false, CheckTerm, Clear, a + 1, b + 1), Step(Second), es, u);
    es := RunStep(State(false, true, false, Clear, Clear, a, b + 1), Step(First), es, u);
    es := RunStep(State(false, true, false, Wait, Clear, a, b + 1), Step(First), es, u);
    es := RunStep(State(false, true, false, WakeCall, Asleep, a, b + 1), Step(First), es, u);
    es := RunStep(State(false, true, false, WakeCall, Wait, a, b + 1), Step(Second), es, u);
    es := RunStep(State(false, true, false, WakeCall, CheckTerm, a, b + 1), Step(Second), es, u);
    es := RunStep(State(false, true, false, WakeCall, WakeCall, a, b), Step(Second), es, u);
    es := RunStep(State(false, value1, false, WakeCall, WakeStore, a, b), Step(Second), es, u);
    es := RunStep(State(false, value1, true, WakeCall, Clear, a, b), Step(Second), es, u);
    es := RunStep(State(false, value1, true, WakeCall, Wait, a, b), Step(Second), es, u);
    es := RunStep(State(false, value1, true, WakeCall, CheckTerm, a, b), Step(Second), es, u);
    es := RunStep(State(false, value1, false, WakeStore, CheckTerm, a, b), Step(First), es, u);
    es := RunStep(Between(value1, false, a, b), Step(First), es, u);
  }

  lemma {:induction false} LapsOfBoth(k: nat, a: nat, b: nat, tail: seq<Event>, u: State) returns (es: seq<Event>)
    requires Run(Between(false, false, a + k, b + k), tail, u) && NoSpurious(tail)
    ensures Run(Between(false, false, a, b), es, u) && NoSpurious(es)
  {
    hide Run;
    es := tail;
    if k > 0 {
      es := LapsOfBoth(k - 1, a + 1, b + 1, tail, u);
      es := LapOfBoth(a, b, es, u);
    }
  }

  lemma {:induction false} LapsOfFirst(k: nat, value2: bool, a: nat, b: nat, tail: seq<Event>, u: State)
      returns (es: seq<Event>)
    requires Run(Between(false, value2 || k > 0, a + 2 * k, b + k), tail, u) && NoSpurious(tail)
    ensures Run(Between(false, value2, a, b), es, u) && NoSpurious(es)
  {
    hide Run;
    es := tail;
    if k > 0 {
      es := LapsOfFirst(k - 1, true, a + 2, b + 1, tail, u);
      es := LapOfFirst(value2, a, b, es, u);
    }
  }

  lemma {:induction false} LapsOfSecond(k: nat, value1: bool, a: nat, b: nat, tail: seq<Event>, u: State)
      returns (es: seq<Event>)
    requires Run(Between(value1 || k > 0, false, a + k, b + 2 * k), tail, u) && NoSpurious(tail)
    ensures Run(Between(value1, false, a, b), es, u) && NoSpurious(es)
  {
    hide Run;
    es := tail;
    if k > 0 {
      es := LapsOfSecond(k - 1, true, a + 1, b + 2, tail, u);
      es := LapOfSecond(value1, a, b, es, u);
    }
  }

  // The two threads are not in lockstep: even when no wait ever returns by itself, the first
  // thread can complete two iterations for every one of its peer, without bound.
  lemma {:induction false} FirstDriftsByFactorTwo(n: nat) returns (es: seq<Event>, s: State)
    ensures Run(Init(), es, s) && NoSpurious(es) && !s.term
    ensures s.count1 == 2 * n && s.count2 == n
  {
    s := Between(false, n > 0, 2 * n, n);
    es := LapsOfFirst(n, false, 0, 0, [], s);
  }

  // Neither can be sure of keeping up: in other runs it is the second thread that completes
  // two iterations for every one of the first.
  lemma {:induction false} SecondDriftsByFactorTwo(n: nat) returns (es: seq<Event>, s: State)
    ensures Run(Init(), es, s) && NoSpurious(es) && !s.term
    ensures s.count1 == n && s.count2 == 2 * n
  {
    s := Between(n > 0, false, n, 2 * n);
    es := LapsOfSecond(n, false, 0, 0, [], s);
  }

  // The first thread sees the flag and returns, whatever its peer, awake, is doing; and the
  // other way round.
  lemma FirstReturns(value1: bool, value2: bool, pc2: Pc, a: nat, b: nat, tail: seq<Event>, u: State)
      returns (es: seq<Event>)
    requires !pc2.Asleep? && Run(State(true, true, true, Finished, pc2, a, b), tail, u) && NoSpurious(tail)
    ensures Run(State(true, value1, value2, CheckTerm, pc2, a, b), es, u) && NoSpurious(es)
  {
    hide Run;
    hide NoSpurious;
    es := tail;
    es := RunStep(State(true, true, true, CancelWake2, pc2, a, b), Step(First), es, u);
    es := RunStep(State(true, true, value2, CancelStore2, pc2, a, b), Step(First), es, u);
    es := RunStep(State(true, true, value2, CancelWake1, pc2, a, b), Step(First), es, u);
    es := RunStep(State(true, value1, value2, CancelStore1, pc2, a, b), Step(First), es, u);
    es := RunStep(State(true, value1, value2, CheckTerm, pc2, a, b), Step(First), es, u);
  }

  lemma SecondReturns(value1: bool, value2: bool, pc1: Pc, a: nat, b: nat, tail: seq<Event>, u: State)
      returns (es: seq<Event>)
    requires !pc1.Asleep? && Run(State(true, true, true, pc1, Finished, a, b), tail, u) && NoSpurious(tail)
    ensures Run(State(true, value1, value2, pc1, CheckTerm, a, b), es, u) && NoSpurious(es)
  {
    hide Run;
    hide NoSpurious;
    es := tail;
    es := RunStep(State(true, true, true, pc1, CancelWake2, a, b), Step(Second), es, u);
    es := RunStep(State(true, true, value2, pc1, CancelStore2, a, b), Step(Second), es, u);
    es := RunStep(State(true, true, value2, pc1, CancelWake1, a, b), Step(Second), es, u);
    es := RunStep(State(true, value1, value2, pc1, CancelStore1, a, b), Step(Second), es, u);
    es := RunStep(State(true, value1, value2, pc1, CheckTerm, a, b), Step(Second), es, u);
  }

  function Ended(a: nat, b: nat): State {
    State(true, true, true, Finished, Finished, a, b)
  }

  // Three ends of a run: no thread counts again, or a cancel signal lets one of them finish
  // the iteration it is in.
  lemma EndsAtOnce(value1: bool, value2: bool, a: nat, b: nat) returns (es: seq<Event>)
    ensures Run(Between(value1, value2, a, b), es, Ended(a, b)) && NoSpurious(es)
  {
    es := [];
    es := SecondReturns(true, true, Finished, a, b, es, Ended(a, b));
    es := FirstReturns(value1, value2, CheckTerm, a, b, es, Ended(a, b));
    hide Run;
    es := RunStep(Between(value1, value2, a, b), RaiseTerm, es, Ended(a, b));
  }

  lemma EndsAfterFirst(value2: bool, a: nat, b: nat) returns (es: seq<Event>)
    ensures Run(Between(false, value2, a, b), es, Ended(a + 1, b)) && NoSpurious(es)
  {
    var u := Ended(a + 1, b);
    es := [];
    es := FirstReturns(false, true, Finished, a + 1, b, es, u);
    hide Run;
    hide NoSpurious;
    es := RunStep(State(true, true, true, Clear, Finished, a, b), Step(First), es, u);
    es := RunStep(State(true, true, true, Wait, Finished, a, b), Step(First), es, u);
    es := SecondReturns(false, true, Wait, a, b, es, u);
    es := RunStep(State(false, false, true, Wait, CheckTerm, a, b), RaiseTerm, es, u);
    es := RunStep(State(false, false, true, WakeCall, CheckTerm, a, b), Step(First), es, u);
    es := RunStep(State(false, false, value2, WakeStore, CheckTerm, a, b), Step(First), es, u);
    es := RunStep(Between(false, value2, a, b), Step(First), es, u);
  }

  lemma EndsAfterSecond(value1: bool, a: nat, b: nat) returns (es: seq<Event>)
    ensures Run(Between(value1, false, a, b), es, Ended(a, b + 1)) && NoSpurious(es)
  {
    var u := Ended(a, b + 1);
    es := [];
    es := SecondReturns(true, false, Finished, a, b + 1, es, u);
    hide Run;
    hide NoSpurious;
    es := RunStep(State(true, true, false, Finished, WakeCall, a, b), Step(Second), es, u);
    es := RunStep(State(true, true, false, Finished, WakeStore, a, b), Step(Second), es, u);
    es := RunStep(State(true, true, true, Finished, Clear, a, b), Step(Second), es, u);
    es := RunStep(State(true, true, true, Finished, Wait, a, b), Step(Second), es, u);
    es := FirstReturns(value1, false, Wait, a, b, es, u);
    es := RunStep(State(false, value1, false, CheckTerm, Wait, a, b), RaiseTerm, es, u);
    es := RunStep(Between(value1, false, a, b), Step(Second), es, u);
  }

  // Some run in which no wait returns by itself ends with these counts.
  ghost predicate CanEndWith(a: nat, b: nat) {
    exists es, s :: EndsWith(es, s, a, b)
  }

  ghost predicate EndsWith(es: seq<Event>, s: State, a: nat, b: nat) {
    && Run(Init(), es, s) && NoSpurious(es)
    && s.pc1.Finished? && s.pc2.Finished? && s.count1 == a && s.count2 == b
  }

  lemma EndingRun(a: nat, b: nat) returns (es: seq<Event>)
    requires a <= 2 * b + 1 && b <= 2 * a + 1
    ensures Run(Init(), es, Ended(a, b)) && NoSpurious(es)
  {
    hide Run;
    hide NoSpurious;
    if a == 2 * b + 1 {
      es := EndsAfterFirst(b > 0, 2 * b, b);
      es := LapsOfFirst(b, false, 0, 0, es, Ended(a, b));
    } else if b == 2 * a + 1 {
      es := EndsAfterSecond(a > 0, a, 2 * a);
      es := LapsOfSecond(a, false, 0, 0, es, Ended(a, b));
    } else if a >= b {
      var k := a - b;
      es := EndsAtOnce(false, k > 0, a, b);
      es := LapsOfFirst(k, false, a - 2 * k, b - k, es, Ended(a, b));
      es := LapsOfBoth(a - 2 * k, 0, 0, es, Ended(a, b));
    } else {
      var k := b - a;
      es := EndsAtOnce(k > 0, false, a, b);
      es := LapsOfSecond(k, false, a - k, b - 2 * k, es, Ended(a, b));
      es := LapsOfBoth(a - k, 0, 0, es, Ended(a, b));
    }
  }

  lemma {:induction false} NoneSpurious(es: seq<Event>, w: Worker)
    requires NoSpurious(es)
    ensures SpuriousWakes(es, w) == 0
  {
    if es != [] { NoneSpurious(es[1..], w); }
  }

  // The two counts a run can end with, when no wait returns by itself, are exactly those of
  // which neither exceeds twice the other by more than one.
  lemma {:induction false} EndCountsIff(a: nat, b: nat)
    ensures CanEndWith(a, b) <==> a <= 2 * b + 1 && b <= 2 * a + 1
  {
    if CanEndWith(a, b) {
      var es, s :| EndsWith(es, s, a, b);
      CountsWithinFactorTwo(es, s);
      NoneSpurious(es, First);
      NoneSpurious(es, Second);
    }
    if a <= 2 * b + 1 && b <= 2 * a + 1 {
      var es := EndingRun(a, b);
      assert EndsWith(es, Ended(a, b), a, b);
    }
  }

  lemma {:induction false} RunSnoc(s: State, es: seq<Event>, m: State, e: Event)
    requires Run(s, es, m) && Enabled(m, e)
    ensures Run(s, es + [e], Next(m, e))
    decreases es
  {
    hide Next;
    if es == [] {
      assert Run(Next(m, e), [e][1..], Next(m, e));
    } else {
      RunSnoc(Next(s, es[0]), es[1..], m, e);
      assert (es + [e])[1..] == es[1..] + [e];
    }
  }

  // ---------- the threads themselves ----------

  // The two futexes, the flag and the two threads' local state.
  class FutexPair {
    var term: bool
    var value1: bool
    var value2: bool
    var pc1: Pc
    var pc2: Pc
    var count1: nat
    var count2: nat

    ghost function Abs(): State
      reads this
    {
      State(term, value1, value2, pc1, pc2, count1, count2)
    }

    constructor ()
      ensures Abs() == Init()
    {
      term, value1, value2 := false, false, false;
      pc1, pc2 := CheckTerm, CheckTerm;
      count1, count2 := 0, 0;
    }

    // The next atomic step of a thread that is neither asleep nor done.
    method TakeStep(w: Worker)
      requires Enabled(Abs(), Step(w))
      modifies this
      ensures Abs() == Next(old(Abs()), Step(w))
    {
      var pc := if w.First? then pc1 else pc2;
      match pc
      case CheckTerm =>
        Goto(w, if term then CancelStore1 else if w.First? then WakeStore else Wait);
      case WakeStore =>
        if w.First? { value2 := true; } else { value1 := true; }
        Goto(w, WakeCall);
      case WakeCall =>
        if w.First? {
          pc2 := Woken(pc2);
          pc1 := Wait;
        } else {
          pc1 := Woken(pc1);
          count2 := count2 + 1;
          pc2 := CheckTerm;
        }
      case Wait =>
        var value := if w.First? then value1 else value2;
        Goto(w, if value then Clear else Asleep);
      case Clear =>
        if w.First? {
          value1 := false;
          count1 := count1 + 1;
          pc1 := CheckTerm;
        } else {
          value2 := false;
          pc2 := WakeStore;
        }
      case CancelStore1 =>
        value1 := true;
        Goto(w, CancelWake1);
      case CancelWake1 =>
        if w.Second? { pc1 := Woken(pc1); }
        Goto(w, CancelStore2);
      case CancelStore2 =>
        value2 := true;
        Goto(w, CancelWake2);
      case CancelWake2 =>
        if w.First? { pc2 := Woken(pc2); }
        Goto(w, Finished);
    }

    method Goto(w: Worker, pc: Pc)
      modifies this`pc1, this`pc2
      ensures pc1 == (if w.First? then pc else old(pc1))
      ensures pc2 == (if w.Second? then pc else old(pc2))
    {
      if w.First? { pc1 := pc; } else { pc2 := pc; }
    }

    // run() for one pair, under the schedule that prefers event schedule(t) at time t. The
    // flag goes up at time raiseAt; a wait may be interrupted only finitely often, and not
    // after the budget is spent. Whatever the schedule, both threads return.
    method RunPair(raiseAt: nat, interruptions: nat, schedule: nat -> Event)
        returns (total: nat, ghost es: seq<Event>)
      requires Abs() == Init()
      modifies this
      ensures Run(Init(), es, Abs())
      ensures term && pc1.Finished? && pc2.Finished?
      ensures total == count1 + count2
      ensures count1 <= 2 * count2 + 1 + SpuriousWakes(es, First)
      ensures count2 <= 2 * count1 + 1 + SpuriousWakes(es, Second)
    {
      hide Rank;
      hide StepFirst;
      hide StepSecond;
      es := [];
      var t, budget := 0, interruptions;
      while !(pc1.Finished? && pc2.Finished?)
        invariant Run(Init(), es, Abs()) && Inv(Abs())
        decreases if term then 0 else 1, if term then 0 else raiseAt - t, Rank(Abs()) + 2 * budget
      {
        var e := schedule(t);
        var runnable := if pc1.Asleep? || pc1.Finished? then Second else First;
        ghost var before := Abs();
        if !term && (t >= raiseAt || e.RaiseTerm?) {
          e := RaiseTerm;
          term := true;
        } else if e.Interrupt? && budget > 0 && (if e.w.First? then pc1 else pc2).Asleep? {
          budget := budget - 1;
          Goto(e.w, Wait);
        } else if e.Spurious? && (if e.w.First? then pc1 else pc2).Asleep? {
          Goto(e.w, Clear);
        } else {
          var w := if e.Step? && !(if e.w.First? then pc1 else pc2).Asleep?
                      && !(if e.w.First? then pc1 else pc2).Finished? then e.w else runnable;
          e := Step(w);
          NoLostWakeup(es, before);
          TakeStep(w);
        }
        NextKeepsInv(before, e);
        RunSnoc(Init(), es, before, e);
        if before.term { NextDecreasesRank(before, e); }
        es := es + [e];
        t := t + 1;
      }
      total := count1 + count2;
      CountsWithinFactorTwo(es, Abs());
    }
  }
}
