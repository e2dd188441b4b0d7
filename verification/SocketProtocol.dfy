/**
 One pair of threads passing a byte back and forth over a unix socket pair, and the extra
 byte each thread writes once it has seen the termination flag.

 A write blocks while `capacity` bytes are in flight in its direction; a read blocks while
 none is. Both ends of the pair outlive the threads, so no read meets an end of stream.
 */
module SocketProtocol {

  datatype Worker = First | Second

  datatype Pc = CheckTerm | Write | Read | CancelWrite | Finished

  // toSecond and toFirst are the bytes in flight in each direction.
  datatype State = State(
    capacity: nat,
    term: bool,
    toSecond: nat, toFirst: nat,
    pc1: Pc, pc2: Pc,
    count1: nat, count2: nat)

  datatype Event = RaiseTerm | Step(w: Worker)

  function Init(capacity: nat): State {
    State(capacity, false, 0, 0, CheckTerm, CheckTerm, 0, 0)
  }

  predicate Enabled(s: State, e: Event) {
    match e
    case RaiseTerm => true
    case Step(First) =>
      (match s.pc1
       case CheckTerm => true
       case Write => s.toSecond < s.capacity
       case CancelWrite => s.toSecond < s.capacity
       case Read => s.toFirst > 0
       case Finished => false)
    case Step(Second) =>
      (match s.pc2
       case CheckTerm => true
       case Write => s.toFirst < s.capacity
       case CancelWrite => s.toFirst < s.capacity
       case Read => s.toSecond > 0
       case Finished => false)
  }

  function Next(s: State, e: Event): State
    requires Enabled(s, e)
  {
    match e
    case RaiseTerm => s.(term := true)
    case Step(First) =>
      (match s.pc1
       case CheckTerm => s.(pc1 := if s.term then CancelWrite else Write)
       case Write => s.(toSecond := s.toSecond + 1, pc1 := Read)
       case Read => s.(toFirst := s.toFirst - 1, count1 := s.count1 + 1, pc1 := CheckTerm)
       case CancelWrite => s.(toSecond := s.toSecond + 1, pc1 := Finished))
    case Step(Second) =>
      (match s.pc2
       case CheckTerm => s.(pc2 := if s.term then CancelWrite else Read)
       case Read => s.(toSecond := s.toSecond - 1, pc2 := Write)
       case Write => s.(toFirst := s.toFirst + 1, count2 := s.count2 + 1, pc2 := CheckTerm)
       case CancelWrite => s.(toFirst := s.toFirst + 1, pc2 := Finished))
  }

  ghost predicate Run(s: State, es: seq<Event>, t: State)
    decreases es
  {
    if es == [] then s == t else Enabled(s, es[0]) && Run(Next(s, es[0]), es[1..], t)
  }

  // ---------- the invariant ----------

  function One(b: bool): nat { if b then 1 else 0 }

  // Every byte written and not yet read is in flight; nobody runs ahead of the token.
  ghost predicate Inv(s: State) {
    && (s.pc1.CancelWrite? || s.pc2.CancelWrite? || s.pc1.Finished? || s.pc2.Finished? ==> s.term)
    && s.toSecond + s.count2 + One(s.pc2.Write?) == s.count1 + One(s.pc1.Read?) + One(s.pc1.Finished?)
    && s.toFirst + s.count1 == s.count2 + One(s.pc2.Finished?)
    // a thread one iteration ahead has read its peer's cancel byte, and so checks the flag next
    && (s.count1 > s.count2 ==> s.term && (s.pc1.CheckTerm? || s.pc1.CancelWrite? || s.pc1.Finished?))
    && (s.count2 > s.count1 && s.pc1.Finished? ==>
          s.pc2.CheckTerm? || s.pc2.CancelWrite? || s.pc2.Finished?)
  }

  lemma NextKeepsInv(s: State, e: Event)
    requires Inv(s) && Enabled(s, e)
    ensures Inv(Next(s, e)) && Next(s, e).capacity == s.capacity
  {
  }

  lemma {:induction false} RunKeepsInv(s: State, es: seq<Event>, t: State)
    requires Inv(s) && Run(s, es, t)
    ensures Inv(t) && t.capacity == s.capacity
    decreases es
  {
    if es != [] {
      NextKeepsInv(s, es[0]);
      RunKeepsInv(Next(s, es[0]), es[1..], t);
    }
  }

  // ---------- lockstep and conservation ----------

  // The two counts never differ by more than one, and never more than two bytes are in
  // flight in either direction, cancel bytes included.
  lemma {:induction false} Lockstep(capacity: nat, es: seq<Event>, s: State)
    requires Run(Init(capacity), es, s)
    ensures -1 <= s.count1 - s.count2 <= 1
    ensures s.toSecond <= 2 && s.toFirst <= 2
    // before the flag goes up the token is in one place, and the second thread leads
    ensures !s.term ==> s.count1 <= s.count2 && s.toSecond + s.toFirst <= 1
  {
    RunKeepsInv(Init(capacity), es, s);
  }

  // ---------- progress ----------

  // With room for two bytes in each direction some thread can always take a step until both
  // have returned; in particular no write ever blocks.
  lemma {:induction false} NeverStuck(capacity: nat, es: seq<Event>, s: State)
    requires capacity >= 2 && Run(Init(capacity), es, s)
    ensures s.pc1.Write? || s.pc1.CancelWrite? ==> Enabled(s, Step(First))
    ensures s.pc2.Write? || s.pc2.CancelWrite? ==> Enabled(s, Step(Second))
    ensures (s.pc1.Finished? && s.pc2.Finished?) || Enabled(s, Step(First)) || Enabled(s, Step(Second))
  {
    RunKeepsInv(Init(capacity), es, s);
  }

  // Neither thread can move and not both have returned.
  predicate Stuck(s: State) {
    !Enabled(s, Step(First)) && !Enabled(s, Step(Second)) && !(s.pc1.Finished? && s.pc2.Finished?)
  }

  lemma RunCons(s: State, e: Event, es: seq<Event>, t: State)
    requires Enabled(s, e) && Run(Next(s, e), es, t)
    ensures Run(s, [e] + es, t)
  {
    hide Next;
    hide Enabled;
    assert ([e] + es)[1..] == es;
  }

  // With no room the first token blocks.
  lemma StuckWithoutRoom() returns (es: seq<Event>, s: State)
    ensures Run(Init(0), es, s) && Stuck(s)
  {
    var s1 := Init(0).(pc1 := Write);
    s := s1.(pc2 := Read);
    assert Run(s, [], s);
    RunCons(s1, Step(Second), [], s);
    RunCons(Init(0), Step(First), [Step(Second)] + [], s);
    es := [Step(First)] + ([Step(Second)] + []);
  }

  // With room for one byte a cancel byte can block behind a token nobody will read: the first
  // thread has written its token and the second has seen the flag instead of reading it.
  const OVERTAKEN := State(1, true, 1, 0, Read, CheckTerm, 0, 0)
  const BLOCKED := State(1, true, 1, 0, CancelWrite, Finished, 1, 0)

  lemma OneStep(s: State, e: Event, t: State, es: seq<Event>, u: State) returns (fs: seq<Event>)
    requires Enabled(s, e) && Next(s, e) == t && Run(t, es, u)
    ensures Run(s, fs, u)
  {
    hide Next;
    hide Enabled;
    RunCons(s, e, es, u);
    fs := [e] + es;
  }

  lemma TokenIsOvertaken(es: seq<Event>, t: State) returns (fs: seq<Event>)
    requires Run(OVERTAKEN, es, t)
    ensures Run(Init(1), fs, t)
  {
    hide Run;
    var s1 := Init(1).(pc1 := Write);
    var s2 := s1.(toSecond := 1, pc1 := Read);
    fs := OneStep(s2, RaiseTerm, OVERTAKEN, es, t);
    fs := OneStep(s1, Step(First), s2, fs, t);
    fs := OneStep(Init(1), Step(First), s1, fs, t);
  }

  lemma SecondCancels(es: seq<Event>, t: State) returns (fs: seq<Event>)
    requires Run(State(1, true, 1, 1, Read, Finished, 0, 0), es, t)
    ensures Run(OVERTAKEN, fs, t)
  {
    hide Run;
    var s1 := State(1, true, 1, 0, Read, CancelWrite, 0, 0);
    fs := OneStep(s1, Step(Second), State(1, true, 1, 1, Read, Finished, 0, 0), es, t);
    fs := OneStep(OVERTAKEN, Step(Second), s1, fs, t);
  }

  lemma FirstIsBlocked() returns (fs: seq<Event>)
    ensures Run(State(1, true, 1, 1, Read, Finished, 0, 0), fs, BLOCKED)
  {
    assert Run(BLOCKED, [], BLOCKED);
    hide Run;
    var s1 := State(1, true, 1, 0, CheckTerm, Finished, 1, 0);
    fs := OneStep(s1, Step(First), BLOCKED, [], BLOCKED);
    fs := OneStep(State(1, true, 1, 1, Read, Finished, 0, 0), Step(First), s1, fs, BLOCKED);
  }

  lemma StuckBelowTwo(capacity: nat) returns (es: seq<Event>, s: State)
    requires capacity < 2
    ensures Run(Init(capacity), es, s) && Stuck(s)
  {
    if capacity == 0 {
      es, s := StuckWithoutRoom();
    } else {
      s := BLOCKED;
      es := FirstIsBlocked();
      es := SecondCancels(es, s);
      es := TokenIsOvertaken(es, s);
    }
  }

  ghost predicate Reachable(capacity: nat, s: State) {
    exists es :: Run(Init(capacity), es, s)
  }

  // Room for two bytes is exactly what the protocol needs.
  lemma {:induction false} CapacityTwoIsNeeded(capacity: nat)
    ensures (exists s :: Reachable(capacity, s) && Stuck(s)) <==> capacity < 2
  {
    if capacity < 2 {
      var es, s := StuckBelowTwo(capacity);
      assert Reachable(capacity, s);
    } else {
      forall s | Reachable(capacity, s)
        ensures !Stuck(s)
      {
        var es :| Run(Init(capacity), es, s);
        NeverStuck(capacity, es, s);
      }
    }
  }

  // ---------- what is counted ----------

  // How often worker w completes an iteration: the first one by reading its answer, the second
  // one by writing it.
  function Trips(s: State, es: seq<Event>, w: Worker): nat
    decreases es
  {
    if es == [] || !Enabled(s, es[0]) then 0
    else
      (if es[0] == Step(w) && (if w.First? then s.pc1.Read? else s.pc2.Write?) then 1 else 0)
      + Trips(Next(s, es[0]), es[1..], w)
  }

  lemma NextCounts(s: State, e: Event)
    requires Enabled(s, e)
    ensures Next(s, e).count1 == s.count1 + if e == Step(First) && s.pc1.Read? then 1 else 0
    ensures Next(s, e).count2 == s.count2 + if e == Step(Second) && s.pc2.Write? then 1 else 0
  {
  }

  // The counts are the numbers of completed round trips.
  lemma {:induction false} CountsAreTrips(s: State, es: seq<Event>, t: State)
    requires Run(s, es, t)
    ensures t.count1 == s.count1 + Trips(s, es, First) && t.count2 == s.count2 + Trips(s, es, Second)
    decreases es
  {
    if es != [] {
      NextCounts(s, es[0]);
      hide Next;
      hide Enabled;
      CountsAreTrips(Next(s, es[0]), es[1..], t);
    }
  }

  // ---------- termination ----------

  function Remaining(pc: Pc, w: Worker): (n: nat)
    ensures n <= 4
  {
    match pc
    case Finished => 0
    case CancelWrite => 1
    case CheckTerm => 2
    case Write => if w.First? then 4 else 3
    case Read => if w.First? then 3 else 4
  }

  function Rank(s: State): (n: nat)
    ensures n <= 8
  {
    Remaining(s.pc1, First) + Remaining(s.pc2, Second)
  }

  lemma NextDecreasesRank(s: State, e: Event)
    requires s.term && Enabled(s, e)
    ensures Next(s, e).term
    ensures Rank(Next(s, e)) == if e.Step? then Rank(s) - 1 else Rank(s)
  {
  }

  function Steps(es: seq<Event>): nat {
    if es == [] then 0 else (if es[0].Step? then 1 else 0) + Steps(es[1..])
  }

  // Once the flag is up the two threads take exactly Rank more steps, eight at most.
  lemma {:induction false} TerminationBound(s: State, es: seq<Event>, t: State)
    requires s.term && Run(s, es, t)
    ensures Steps(es) + Rank(t) == Rank(s) <= 8
    decreases es
  {
    hide Next;
    if es != [] {
      NextDecreasesRank(s, es[0]);
      TerminationBound(Next(s, es[0]), es[1..], t);
    }
  }

  lemma {:induction false} RunSnoc(s: State, es: seq<Event>, m: State, e: Event)
    requires Run(s, es, m) && Enabled(m, e)
    ensures Run(s, es + [e], Next(m, e))
    decreases es
  {
    hide Next;
    if es == [] {
      assert Run(Next(m, e), [e][1..], Next(m, e));
    } else {
      RunSnoc(Next(s, es[0]), es[1..], m, e);
      assert (es + [e])[1..] == es[1..] + [e];
    }
  }

  // ---------- the threads themselves ----------

  class SocketPair {
    const capacity: nat
    var term: bool
    var toSecond: nat
    var toFirst: nat
    var pc1: Pc
    var pc2: Pc
    var count1: nat
    var count2: nat

    ghost function Abs(): State
      reads this
    {
      State(capacity, term, toSecond, toFirst, pc1, pc2, count1, count2)
    }

    constructor (capacity: nat)
      ensures Abs() == Init(capacity)
    {
      this.capacity := capacity;
      term := false;
      toSecond, toFirst := 0, 0;
      pc1, pc2 := CheckTerm, CheckTerm;
      count1, count2 := 0, 0;
    }

    predicate CanStep(w: Worker)
      reads this
      ensures CanStep(w) == Enabled(Abs(), Step(w))
    {
      if w.First? then
        pc1.CheckTerm? || (pc1.Read? && toFirst > 0) || ((pc1.Write? || pc1.CancelWrite?) && toSecond < capacity)
      else
        pc2.CheckTerm? || (pc2.Read? && toSecond > 0) || ((pc2.Write? || pc2.CancelWrite?) && toFirst < capacity)
    }

    method TakeStep(w: Worker)
      requires Enabled(Abs(), Step(w))
      modifies this
      ensures Abs() == Next(old(Abs()), Step(w))
    {
      if w.First? {
        match pc1
        case CheckTerm => pc1 := if term then CancelWrite else Write;
        case Write => toSecond := toSecond + 1; pc1 := Read;
        case Read => toFirst := toFirst - 1; count1 := count1 + 1; pc1 := CheckTerm;
        case CancelWrite => toSecond := toSecond + 1; pc1 := Finished;
      } else {
        match pc2
        case CheckTerm => pc2 := if term then CancelWrite else Read;
        case Read => toSecond := toSecond - 1; pc2 := Write;
        case Write => toFirst := toFirst + 1; count2 := count2 + 1; pc2 := CheckTerm;
        case CancelWrite => toFirst := toFirst + 1; pc2 := Finished;
      }
    }

    // run() for one pair: at time t thread schedule(t) moves if it can, else the other one;
    // the flag goes up at time raiseAt. Both threads return, in lockstep.
    method RunPair(raiseAt: nat, schedule: nat -> Worker) returns (total: nat, ghost es: seq<Event>)
      requires Abs() == Init(capacity) && capacity >= 2
      modifies this
      ensures Run(Init(capacity), es, Abs())
      ensures term && pc1.Finished? && pc2.Finished?
      ensures total == count1 + count2 && -1 <= count1 - count2 <= 1
      // the bytes left unread are the cancel bytes, wherever the token was
      ensures toFirst + toSecond == 2
    {
      hide Rank;
      es := [];
      var t := 0;
      while !(pc1.Finished? && pc2.Finished?)
        invariant Run(Init(capacity), es, Abs()) && Inv(Abs())
        decreases if term then 0 else 1, if term then 0 else raiseAt - t, Rank(Abs())
      {
        ghost var before := Abs();
        ghost var e := RaiseTerm;
        NeverStuck(capacity, es, before);
        if !term && t >= raiseAt {
          term := true;
        } else {
          var w := schedule(t);
          if !CanStep(w) { w := if w.First? then Second else First; }
          e := Step(w);
          TakeStep(w);
        }
        NextKeepsInv(before, e);
        RunSnoc(Init(capacity), es, before, e);
        if before.term { NextDecreasesRank(before, e); }
        es := es + [e];
        t := t + 1;
      }
      total := count1 + count2;
      Lockstep(capacity, es, Abs());
    }
  }
}
