/**
 One pair of tasks passing a byte back and forth over a unix socket pair on a
 single-threaded runtime. A task waits for its peer on a Notify; the socket calls
 themselves are blocking, so a read without a byte, or a write without room, would block
 the runtime and with it the peer. A barrier of two keeps each stream open until both
 tasks have seen the termination flag.

 A step is at most the code between two awaits, so every schedule of the runtime is a run.
 */
module AsyncProtocol {

  datatype Task = First | Second

  // Awaiting is about to poll its notified() future, Waiting is registered with the Notify,
  // Woken holds a notification. Arriving is about to enter the barrier.
  datatype Pc = Top | Awaiting | Waiting | Woken | Arriving | AtBarrier | Finished

  // permit1 and permit2 are the permits stored in the two Notify objects; toSecond and
  // toFirst count the bytes in flight. A stream is dropped when its task finishes.
  // fault records that some socket call panicked or blocked the runtime.
  datatype State = State(
    capacity: nat,
    term: bool,
    permit1: bool, permit2: bool,
    toSecond: nat, toFirst: nat,
    pc1: Pc, pc2: Pc,
    count1: nat, count2: nat,
    fault: bool)

  datatype Event = RaiseTerm | Step(t: Task)

  function Init(capacity: nat): State {
    State(capacity, false, false, false, 0, 0, Top, Top, 0, 0, false)
  }

  predicate InBarrier(pc: Pc) { pc.AtBarrier? || pc.Finished? }

  predicate Enabled(s: State, e: Event) {
    match e
    case RaiseTerm => true
    case Step(First) =>
      (match s.pc1
       case Waiting => false
       case AtBarrier => InBarrier(s.pc2)
       case Finished => false
       case _ => true)
    case Step(Second) =>
      (match s.pc2
       case Waiting => false
       case AtBarrier => InBarrier(s.pc1)
       case Finished => false
       case _ => true)
  }

  // ---------- the socket and Notify calls ----------

  // Writing one byte faults when there is no room or the peer's stream is gone.
  function WriteToSecond(s: State): State {
    s.(toSecond := s.toSecond + 1, fault := s.fault || s.toSecond >= s.capacity || s.pc2.Finished?)
  }

  function WriteToFirst(s: State): State {
    s.(toFirst := s.toFirst + 1, fault := s.fault || s.toFirst >= s.capacity || s.pc1.Finished?)
  }

  // Reading one byte faults when none is in flight.
  function ReadByFirst(s: State): State {
    if s.toFirst == 0 then s.(fault := true) else s.(toFirst := s.toFirst - 1)
  }

  function ReadBySecond(s: State): State {
    if s.toSecond == 0 then s.(fault := true) else s.(toSecond := s.toSecond - 1)
  }

  // notify_one wakes the registered waiter, or else stores the permit; a second permit is lost.
  function Notify1(s: State): State {
    if s.pc1.Waiting? then s.(pc1 := Woken) else s.(permit1 := true)
  }

  function Notify2(s: State): State {
    if s.pc2.Waiting? then s.(pc2 := Woken) else s.(permit2 := true)
  }

  function StepFirst(s: State): State
    requires Enabled(s, Step(First))
  {
    match s.pc1
    case Top => Notify2(WriteToSecond(s)).(pc1 := if s.term then Arriving else Awaiting)
    case Awaiting => if s.permit1 then s.(permit1 := false, pc1 := Woken) else s.(pc1 := Waiting)
    case Woken => ReadByFirst(s).(count1 := s.count1 + 1, pc1 := Top)
    case Arriving => s.(pc1 := AtBarrier)
    case AtBarrier => s.(pc1 := Finished)
  }

  function StepSecond(s: State): State
    requires Enabled(s, Step(Second))
  {
    match s.pc2
    case Top => if s.term then Notify1(WriteToFirst(s)).(pc2 := Arriving) else s.(pc2 := Awaiting)
    case Awaiting => if s.permit2 then s.(permit2 := false, pc2 := Woken) else s.(pc2 := Waiting)
    case Woken => Notify1(WriteToFirst(ReadBySecond(s))).(count2 := s.count2 + 1, pc2 := Top)
    case Arriving => s.(pc2 := AtBarrier)
    case AtBarrier => s.(pc2 := Finished)
  }

  function Next(s: State, e: Event): State
    requires Enabled(s, e)
  {
    match e
    case RaiseTerm => s.(term := true)
    case Step(First) => StepFirst(s)
    case Step(Second) => StepSecond(s)
  }

  ghost predicate Run(s: State, es: seq<Event>, t: State)
    decreases es
  {
    if es == [] then s == t else Enabled(s, es[0]) && Run(Next(s, es[0]), es[1..], t)
  }

  lemma RunCons(s: State, e: Event, es: seq<Event>, t: State)
    requires Enabled(s, e) && Run(Next(s, e), es, t)
    ensures Run(s, [e] + es, t)
  {
    hide Next;
    hide Enabled;
    assert ([e] + es)[1..] == es;
  }

  // ---------- the invariant ----------

  function One(b: bool): nat { if b then 1 else 0 }

  // The task has sent its byte and not yet read the answer (first), or waits for one (second).
  predicate Mid(pc: Pc) { pc.Awaiting? || pc.Waiting? || pc.Woken? }

  predicate Cancelled(pc: Pc) { pc.Arriving? || InBarrier(pc) }

  // Notifications a task has not yet consumed: one it has been woken by, one stored.
  function Pending1(s: State): nat { One(s.permit1) + One(s.pc1.Woken?) }
  function Pending2(s: State): nat { One(s.permit2) + One(s.pc2.Woken?) }

  ghost predicate Inv(s: State) {
    && !s.fault
    && (Cancelled(s.pc1) || Cancelled(s.pc2) ==> s.term)
    // conservation of bytes
    && s.toSecond + s.count2 == s.count1 + One(Mid(s.pc1)) + One(Cancelled(s.pc1))
    && s.toFirst + s.count1 == s.count2 + One(Cancelled(s.pc2))
    // notifications never outnumber bytes, and a waiting task is notified of its byte
    && Pending1(s) <= s.toFirst && Pending2(s) <= s.toSecond
    && (s.pc1.Waiting? ==> !s.permit1) && (s.pc2.Waiting? ==> !s.permit2)
    && (Mid(s.pc1) && s.toFirst > 0 ==> Pending1(s) > 0)
    && (!Cancelled(s.pc2) && s.toSecond > 0 ==> Pending2(s) > 0)
    // a task one iteration ahead has read its peer's cancel byte
    && (s.count1 > s.count2 ==> s.term && !Mid(s.pc1))
    && (s.count2 > s.count1 && Cancelled(s.pc1) ==> !Mid(s.pc2))
    // the barrier
    && (s.pc1.Finished? ==> InBarrier(s.pc2)) && (s.pc2.Finished? ==> InBarrier(s.pc1))
  }

  lemma FirstKeepsInv(s: State)
    requires s.capacity >= 2 && Inv(s) && Enabled(s, Step(First))
    ensures Inv(StepFirst(s))
  {
    hide Inv;
    hide StepFirst;
    match s.pc1
    case Top => FirstStartsKeepsInv(s);
    case Woken => FirstReadsKeepsInv(s);
    case _ => FirstMovesKeepsInv(s);
  }

  lemma FirstStartsKeepsInv(s: State)
    requires s.capacity >= 2 && Inv(s) && Enabled(s, Step(First)) && s.pc1.Top?
    ensures Inv(StepFirst(s))
  {
  }

  lemma FirstReadsKeepsInv(s: State)
    requires s.capacity >= 2 && Inv(s) && Enabled(s, Step(First)) && s.pc1.Woken?
    ensures Inv(StepFirst(s))
  {
  }

  lemma FirstMovesKeepsInv(s: State)
    requires s.capacity >= 2 && Inv(s) && Enabled(s, Step(First)) && !s.pc1.Top? && !s.pc1.Woken?
    ensures Inv(StepFirst(s))
  {
  }

  lemma SecondKeepsInv(s: State)
    requires s.capacity >= 2 && Inv(s) && Enabled(s, Step(Second))
    ensures Inv(StepSecond(s))
  {
    hide Inv;
    hide StepSecond;
    match s.pc2
    case Top => SecondStartsKeepsInv(s);
    case Woken => SecondReadsKeepsInv(s);
    case _ => SecondMovesKeepsInv(s);
  }

  lemma SecondStartsKeepsInv(s: State)
    requires s.capacity >= 2 && Inv(s) && Enabled(s, Step(Second)) && s.pc2.Top?
    ensures Inv(StepSecond(s))
  {
  }

  lemma SecondReadsKeepsInv(s: State)
    requires s.capacity >= 2 && Inv(s) && Enabled(s, Step(Second)) && s.pc2.Woken?
    ensures Inv(StepSecond(s))
  {
  }

  lemma SecondMovesKeepsInv(s: State)
    requires s.capacity >= 2 && Inv(s) && Enabled(s, Step(Second)) && !s.pc2.Top? && !s.pc2.Woken?
    ensures Inv(StepSecond(s))
  {
  }

  lemma StepsKeepCapacity(s: State)
    ensures Enabled(s, Step(First)) ==> StepFirst(s).capacity == s.capacity
    ensures Enabled(s, Step(Second)) ==> StepSecond(s).capacity == s.capacity
  {
  }

  lemma NextKeepsInv(s: State, e: Event)
    requires s.capacity >= 2 && Inv(s) && Enabled(s, e)
    ensures Inv(Next(s, e)) && Next(s, e).capacity == s.capacity
  {
    hide StepFirst;
    hide StepSecond;
    StepsKeepCapacity(s);
    match e
    case RaiseTerm =>
    case Step(First) => FirstKeepsInv(s);
    case Step(Second) => SecondKeepsInv(s);
  }

  lemma {:induction false} RunKeepsInv(s: State, es: seq<Event>, t: State)
    requires s.capacity >= 2 && Inv(s) && Run(s, es, t)
    ensures Inv(t) && t.capacity == s.capacity
    decreases es
  {
    hide Next;
    if es != [] {
      NextKeepsInv(s, es[0]);
      RunKeepsInv(Next(s, es[0]), es[1..], t);
    }
  }

  // ---------- safety ----------

  // Under every schedule: no socket call panics or blocks the runtime, notifications never
  // outnumber the bytes they announce, and the two tasks stay within one iteration.
  lemma {:induction false} NoCallBlocksOrFails(capacity: nat, es: seq<Event>, s: State)
    requires capacity >= 2 && Run(Init(capacity), es, s)
    ensures !s.fault
    ensures Pending1(s) <= s.toFirst <= 2 && Pending2(s) <= s.toSecond <= 2
    ensures -1 <= s.count1 - s.count2 <= 1
  {
    RunKeepsInv(Init(capacity), es, s);
  }

  ghost predicate Reachable(capacity: nat, s: State) {
    exists es :: Run(Init(capacity), es, s)
  }

  // With less room than two bytes, a cancel byte can block the runtime behind the token.
  lemma FaultBelowTwo(capacity: nat) returns (es: seq<Event>, s: State)
    requires capacity < 2
    ensures Run(Init(capacity), es, s) && s.fault
  {
    es := [Step(First), RaiseTerm, Step(Second), Step(First), Step(First), Step(First)];
    var a := Next(Next(Next(Init(capacity), es[0]), es[1]), es[2]);
    var b := Next(a, es[3]);
    s := Next(Next(b, es[4]), es[5]);
    assert Run(b, es[4..], s);
    assert Run(a, es[3..], s) by { assert es[3..][1..] == es[4..]; }
  }

  // Room for two bytes in each direction is exactly what the protocol needs.
  lemma {:induction false} FaultFreeIffRoomForTwo(capacity: nat)
    ensures (exists s :: Reachable(capacity, s) && s.fault) <==> capacity < 2
  {
    if capacity < 2 {
      var es, s := FaultBelowTwo(capacity);
      assert Reachable(capacity, s);
    } else {
      forall s | Reachable(capacity, s)
        ensures !s.fault
      {
        var es :| Run(Init(capacity), es, s);
        NoCallBlocksOrFails(capacity, es, s);
      }
    }
  }

  // The barrier: when one stream has been dropped, its peer has written its last byte.
  lemma {:induction false} StreamsOutliveWrites(capacity: nat, es: seq<Event>, s: State)
    requires capacity >= 2 && Run(Init(capacity), es, s)
    ensures s.pc1.Finished? ==> InBarrier(s.pc2)
    ensures s.pc2.Finished? ==> InBarrier(s.pc1)
  {
    RunKeepsInv(Init(capacity), es, s);
  }

  // Some task can always run until both have returned.
  lemma {:induction false} NeverStuck(capacity: nat, es: seq<Event>, s: State)
    requires capacity >= 2 && Run(Init(capacity), es, s)
    ensures (s.pc1.Finished? && s.pc2.Finished?) || Enabled(s, Step(First)) || Enabled(s, Step(Second))
  {
    RunKeepsInv(Init(capacity), es, s);
  }

  // ---------- what is counted ----------

  // How often worker w completes an iteration: the first one by reading its answer, the second
  // one by writing it.
  function Trips(s: State, es: seq<Event>, w: Task): nat
    decreases es
  {
    if es == [] || !Enabled(s, es[0]) then 0
    else
      (if es[0] == Step(w) && (if w.First? then s.pc1.Woken? else s.pc2.Woken?) then 1 else 0)
      + Trips(Next(s, es[0]), es[1..], w)
  }

  lemma NextCounts(s: State, e: Event)
    requires Enabled(s, e)
    ensures Next(s, e).count1 == s.count1 + if e == Step(First) && s.pc1.Woken? then 1 else 0
    ensures Next(s, e).count2 == s.count2 + if e == Step(Second) && s.pc2.Woken? then 1 else 0
  {
  }

  // The counts are the numbers of completed round trips.
  lemma {:induction false} CountsAreTrips(s: State, es: seq<Event>, t: State)
    requires Run(s, es, t)
    ensures t.count1 == s.count1 + Trips(s, es, First) && t.count2 == s.count2 + Trips(s, es, Second)
    decreases es
  {
    if es != [] {
      NextCounts(s, es[0]);
      hide Next;
      hide Enabled;
      CountsAreTrips(Next(s, es[0]), es[1..], t);
    }
  }

  // ---------- termination ----------

  function Remaining(pc: Pc): (n: nat)
    ensures n <= 6
  {
    match pc
    case Finished => 0
    case AtBarrier => 1
    case Arriving => 2
    case Top => 3
    case Woken => 4
    case Waiting => 5
    case Awaiting => 6
  }

  function Rank(s: State): (n: nat)
    ensures n <= 12
  {
    Remaining(s.pc1) + Remaining(s.pc2)
  }

  lemma FirstDecreasesRank(s: State)
    requires s.term && Enabled(s, Step(First))
    ensures StepFirst(s).term && Rank(StepFirst(s)) < Rank(s)
  {
  }

  lemma SecondDecreasesRank(s: State)
    requires s.term && Enabled(s, Step(Second))
    ensures StepSecond(s).term && Rank(StepSecond(s)) < Rank(s)
  {
  }

  lemma NextDecreasesRank(s: State, e: Event)
    requires s.term && Enabled(s, e)
    ensures Next(s, e).term
    ensures if e.Step? then Rank(Next(s, e)) < Rank(s) else Rank(Next(s, e)) == Rank(s)
  {
    hide StepFirst;
    hide StepSecond;
    match e
    case RaiseTerm =>
    case Step(First) => FirstDecreasesRank(s);
    case Step(Second) => SecondDecreasesRank(s);
  }

  function Steps(es: seq<Event>): nat {
    if es == [] then 0 else (if es[0].Step? then 1 else 0) + Steps(es[1..])
  }

  // Once the flag is up the two tasks take at most Rank more steps, twelve at most.
  lemma {:induction false} TerminationBound(s: State, es: seq<Event>, t: State)
    requires s.term && Run(s, es, t)
    ensures Steps(es) + Rank(t) <= Rank(s) <= 12
    decreases es
  {
    hide Next;
    if es != [] {
      NextDecreasesRank(s, es[0]);
      TerminationBound(Next(s, es[0]), es[1..], t);
    }
  }

  lemma {:induction false} RunSnoc(s: State, es: seq<Event>, m: State, e: Event)
    requires Run(s, es, m) && Enabled(m, e)
    ensures Run(s, es + [e], Next(m, e))
    decreases es
  {
    hide Next;
    if es == [] {
      assert Run(Next(m, e), [e][1..], Next(m, e));
    } else {
      RunSnoc(Next(s, es[0]), es[1..], m, e);
      assert (es + [e])[1..] == es[1..] + [e];
    }
  }

  // ---------- the tasks themselves ----------

  class AsyncPair {
    const capacity: nat
    var term: bool
    var permit1: bool
    var permit2: bool
    var toSecond: nat
    var toFirst: nat
    var pc1: Pc
    var pc2: Pc
    var count1: nat
    var count2: nat
    var fault: bool

    ghost function Abs(): State
      reads this
    {
      State(capacity, term, permit1, permit2, toSecond, toFirst, pc1, pc2, count1, count2, fault)
    }

    constructor (capacity: nat)
      ensures Abs() == Init(capacity)
    {
      this.capacity := capacity;
      term, permit1, permit2, fault := false, false, false, false;
      toSecond, toFirst := 0, 0;
      pc1, pc2 := Top, Top;
      count1, count2 := 0, 0;
    }

    predicate CanStep(t: Task)
      reads this
      ensures CanStep(t) == Enabled(Abs(), Step(t))
    {
      var mine, other := if t.First? then pc1 else pc2, if t.First? then pc2 else pc1;
      !mine.Waiting? && !mine.Finished? && (mine.AtBarrier? ==> InBarrier(other))
    }

    // stream.write of one byte by task t.
    method WriteByte(t: Task)
      modifies this
      ensures Abs() == if t.First? then WriteToSecond(old(Abs())) else WriteToFirst(old(Abs()))
    {
      if t.First? {
        fault := fault || toSecond >= capacity || pc2.Finished?;
        toSecond := toSecond + 1;
      } else {
        fault := fault || toFirst >= capacity || pc1.Finished?;
        toFirst := toFirst + 1;
      }
    }

    // stream.read of one byte by task t.
    method ReadByte(t: Task)
      modifies this
      ensures Abs() == if t.First? then ReadByFirst(old(Abs())) else ReadBySecond(old(Abs()))
    {
      if t.First? {
        if toFirst == 0 { fault := true; } else { toFirst := toFirst - 1; }
      } else {
        if toSecond == 0 { fault := true; } else { toSecond := toSecond - 1; }
      }
    }

    // notify_one on the Notify that the peer of t waits on.
    method NotifyPeer(t: Task)
      modifies this
      ensures Abs() == if t.First? then Notify2(old(Abs())) else Notify1(old(Abs()))
    {
      if t.First? {
        if pc2.Waiting? { pc2 := Woken; } else { permit2 := true; }
      } else {
        if pc1.Waiting? { pc1 := Woken; } else { permit1 := true; }
      }
    }

    method TakeStepFirst()
      requires Enabled(Abs(), Step(First))
      modifies this
      ensures Abs() == StepFirst(old(Abs()))
    {
      match pc1
      case Top =>
        WriteByte(First);
        NotifyPeer(First);
        pc1 := if term then Arriving else Awaiting;
      case Awaiting =>
        if permit1 { permit1 := false; pc1 := Woken; } else { pc1 := Waiting; }
      case Woken =>
        ReadByte(First);
        count1 := count1 + 1;
        pc1 := Top;
      case Arriving => pc1 := AtBarrier;
      case AtBarrier => pc1 := Finished;
    }

    method TakeStepSecond()
      requires Enabled(Abs(), Step(Second))
      modifies this
      ensures Abs() == StepSecond(old(Abs()))
    {
      match pc2
      case Top =>
        if term {
          WriteByte(Second);
          NotifyPeer(Second);
          pc2 := Arriving;
        } else {
          pc2 := Awaiting;
        }
      case Awaiting =>
        if permit2 { permit2 := false; pc2 := Woken; } else { pc2 := Waiting; }
      case Woken =>
        ReadByte(Second);
        WriteByte(Second);
        NotifyPeer(Second);
        count2 := count2 + 1;
        pc2 := Top;
      case Arriving => pc2 := AtBarrier;
      case AtBarrier => pc2 := Finished;
    }

    // run_async() for one pair: at time n task schedule(n) is polled if it is ready, else the
    // other one; the flag goes up at time raiseAt. Both tasks return and nothing panics.
    method RunPair(raiseAt: nat, schedule: nat -> Task) returns (result: nat, ghost es: seq<Event>)
      requires Abs() == Init(capacity) && capacity >= 2
      modifies this
      ensures Run(Init(capacity), es, Abs())
      ensures term && pc1.Finished? && pc2.Finished? && !fault
      ensures result == count1 + count2 && -1 <= count1 - count2 <= 1
      ensures toFirst + toSecond == 2
    {
      hide Rank;
      hide StepFirst;
      hide StepSecond;
      es := [];
      var n := 0;
      while !(pc1.Finished? && pc2.Finished?)
        invariant Run(Init(capacity), es, Abs()) && Inv(Abs())
        decreases if term then 0 else 1, if term then 0 else raiseAt - n, Rank(Abs())
      {
        ghost var before := Abs();
        ghost var e := RaiseTerm;
        NeverStuck(capacity, es, before);
        if !term && n >= raiseAt {
          term := true;
        } else {
          var t := schedule(n);
          if !CanStep(t) { t := if t.First? then Second else First; }
          e := Step(t);
          if t.First? { TakeStepFirst(); } else { TakeStepSecond(); }
        }
        NextKeepsInv(before, e);
        RunSnoc(Init(capacity), es, before, e);
        if before.term { NextDecreasesRank(before, e); }
        es := es + [e];
        n := n + 1;
      }
      result := count1 + count2;
      NoCallBlocksOrFails(capacity, es, Abs());
    }
  }
}
