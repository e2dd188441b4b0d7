/**
 All threads of one socket run: one flat vector of sockets, of which thread t uses the one at
 index t, and one flag. The vector is built pair by pair, and what one thread does is
 invisible to all pairs but its own.
 */
module SocketGroup {
  import opened Totals
  import P = SocketProtocol

  // ---------- thread ids and sockets ----------

  // One end of a connected pair. What is written to it can be read at the other end.
  datatype Socket = Socket(pair: nat, end: P.Worker)

  // The vector that flat_map builds from the connected pairs.
  function FlatMap(pairs: nat): (r: seq<Socket>)
    ensures |r| == 2 * pairs
  {
    if pairs == 0 then [] else FlatMap(pairs - 1) + [Socket(pairs - 1, P.First), Socket(pairs - 1, P.Second)]
  }

  function RoleOf(thread: nat): P.Worker {
    if thread % 2 == 0 then P.First else P.Second
  }

  // Every socket has one user, whose role fits its end, and two threads are connected exactly
  // when they belong to one pair.
  lemma {:induction false} SocketsArePrivate(pairs: nat, t: nat)
    requires t < 2 * pairs
    ensures FlatMap(pairs)[t] == Socket(t / 2, RoleOf(t))
  {
    if t < 2 * (pairs - 1) {
      SocketsArePrivate(pairs - 1, t);
    }
  }

  // ---------- the protocol of all threads ----------

  // toFirst and toSecond are the bytes in flight of each pair.
  datatype State = State(
    term: bool, capacity: nat,
    toFirst: seq<nat>, toSecond: seq<nat>,
    pcs: seq<P.Pc>, counts: seq<nat>)

  datatype Event = RaiseTerm | Step(thread: nat)

  predicate Sized(s: State, pairs: nat) {
    |s.toFirst| == |s.toSecond| == pairs && |s.pcs| == |s.counts| == 2 * pairs
  }

  predicate WellFormed(s: State) { Sized(s, |s.toFirst|) }

  function Init(pairs: nat, capacity: nat): State {
    State(false, capacity, seq(pairs, _ => 0), seq(pairs, _ => 0),
          seq(2 * pairs, _ => P.CheckTerm), seq(2 * pairs, _ => 0))
  }

  // Bytes that can be read from a socket, and bytes written to it that nobody has read.
  function Readable(s: State, k: Socket): nat
    requires WellFormed(s) && k.pair < |s.toFirst|
  {
    if k.end.First? then s.toFirst[k.pair] else s.toSecond[k.pair]
  }

  function Unread(s: State, k: Socket): nat
    requires WellFormed(s) && k.pair < |s.toFirst|
  {
    if k.end.First? then s.toSecond[k.pair] else s.toFirst[k.pair]
  }

  function SetReadable(s: State, k: Socket, n: nat): (t: State)
    requires WellFormed(s) && k.pair < |s.toFirst|
    ensures WellFormed(t) && |t.toFirst| == |s.toFirst|
  {
    if k.end.First? then s.(toFirst := s.toFirst[k.pair := n]) else s.(toSecond := s.toSecond[k.pair := n])
  }

  function SetUnread(s: State, k: Socket, n: nat): (t: State)
    requires WellFormed(s) && k.pair < |s.toFirst|
    ensures WellFormed(t) && |t.toFirst| == |s.toFirst|
  {
    if k.end.First? then s.(toSecond := s.toSecond[k.pair := n]) else s.(toFirst := s.toFirst[k.pair := n])
  }

  // The socket of a thread, straight from the vector.
  function SocketOf(s: State, t: nat): (k: Socket)
    requires WellFormed(s) && t < |s.pcs|
    ensures k.pair < |s.toFirst|
  {
    SocketsArePrivate(|s.toFirst|, t);
    FlatMap(|s.toFirst|)[t]
  }

  predicate Enabled(s: State, e: Event) {
    e.Step? ==>
      && WellFormed(s) && e.thread < |s.pcs|
      && match s.pcs[e.thread]
         case CheckTerm => true
         case Read => Readable(s, SocketOf(s, e.thread)) > 0
         case Finished => false
         case _ => Unread(s, SocketOf(s, e.thread)) < s.capacity
  }

  function Goto(s: State, t: nat, pc: P.Pc): State
    requires t < |s.pcs|
  {
    s.(pcs := s.pcs[t := pc])
  }

  function CountOne(s: State, t: nat): State
    requires t < |s.counts|
  {
    s.(counts := s.counts[t := s.counts[t] + 1])
  }

  function ThreadStep(s: State, t: nat): (r: State)
    requires Enabled(s, Step(t))
    ensures WellFormed(r) && |r.toFirst| == |s.toFirst| && r.term == s.term && r.capacity == s.capacity
  {
    var k, first := SocketOf(s, t), RoleOf(t).First?;
    match s.pcs[t]
    case CheckTerm => Goto(s, t, if s.term then P.CancelWrite else if first then P.Write else P.Read)
    case Write =>
      var sent := SetUnread(s, k, Unread(s, k) + 1);
      if first then Goto(sent, t, P.Read) else CountOne(Goto(sent, t, P.CheckTerm), t)
    case Read =>
      var got := SetReadable(s, k, Readable(s, k) - 1);
      if first then CountOne(Goto(got, t, P.CheckTerm), t) else Goto(got, t, P.Write)
    case CancelWrite => Goto(SetUnread(s, k, Unread(s, k) + 1), t, P.Finished)
  }

  function Next(s: State, e: Event): State
    requires Enabled(s, e)
  {
    match e
    case RaiseTerm => s.(term := true)
    case Step(t) => ThreadStep(s, t)
  }

  ghost predicate Run(s: State, es: seq<Event>, t: State)
    decreases es
  {
    if es == [] then s == t else Enabled(s, es[0]) && Run(Next(s, es[0]), es[1..], t)
  }

  // ---------- one pair's part of it ----------

  function PairOf(s: State, p: nat): P.State
    requires WellFormed(s) && p < |s.toFirst|
  {
    P.State(s.capacity, s.term, s.toSecond[p], s.toFirst[p],
            s.pcs[2 * p], s.pcs[2 * p + 1], s.counts[2 * p], s.counts[2 * p + 1])
  }

  // What pair p sees of an event: nothing, when it belongs to another pair.
  function EventOf(e: Event, p: nat): seq<P.Event> {
    match e
    case RaiseTerm => [P.RaiseTerm]
    case Step(t) => if t / 2 == p then [P.Step(RoleOf(t))] else []
  }

  function EventsOf(es: seq<Event>, p: nat): seq<P.Event> {
    if es == [] then [] else EventOf(es[0], p) + EventsOf(es[1..], p)
  }

  lemma OwnStep(s: State, p: nat, t: nat)
    requires WellFormed(s) && p < |s.toFirst| && t < |s.pcs| && t / 2 == p
    ensures Enabled(s, Step(t)) <==> P.Enabled(PairOf(s, p), P.Step(RoleOf(t)))
    ensures Enabled(s, Step(t)) ==> PairOf(ThreadStep(s, t), p) == P.Next(PairOf(s, p), P.Step(RoleOf(t)))
  {
    SocketsArePrivate(|s.toFirst|, t);
    hide FlatMap;
    assert t == 2 * p || t == 2 * p + 1;
  }

  // A step changes the bytes of the thread's own pair, and its own program point and count.
  lemma OnlyOwnChanges(s: State, t: nat, p: nat, u: nat)
    requires Enabled(s, Step(t)) && p < |s.toFirst| && t / 2 != p && u < |s.pcs| && u != t
    ensures var r := ThreadStep(s, t);
            r.toFirst[p] == s.toFirst[p] && r.toSecond[p] == s.toSecond[p]
            && r.pcs[u] == s.pcs[u] && r.counts[u] == s.counts[u]
  {
    SocketsArePrivate(|s.toFirst|, t);
    assert SocketOf(s, t).pair == t / 2;
    hide FlatMap;
    hide SocketOf;
    hide RoleOf;
    hide Enabled;
  }

  lemma OtherStep(s: State, p: nat, t: nat)
    requires Enabled(s, Step(t)) && p < |s.toFirst| && t / 2 != p
    ensures PairOf(ThreadStep(s, t), p) == PairOf(s, p)
  {
    OnlyOwnChanges(s, t, p, 2 * p);
    OnlyOwnChanges(s, t, p, 2 * p + 1);
    hide ThreadStep;
    hide Enabled;
  }

  // What follows an event in pair p's run.
  lemma ProjectedStep(s: State, e: Event, p: nat, rest: seq<P.Event>, t: P.State)
    requires WellFormed(s) && p < |s.toFirst| && Enabled(s, e)
    requires WellFormed(Next(s, e)) && |Next(s, e).toFirst| == |s.toFirst|
    requires P.Run(PairOf(Next(s, e), p), rest, t)
    ensures P.Run(PairOf(s, p), EventOf(e, p) + rest, t)
  {
    var own := EventOf(e, p);
    if e.Step? {
      if e.thread / 2 == p { OwnStep(s, p, e.thread); } else { OtherStep(s, p, e.thread); }
    } else {
      assert P.Enabled(PairOf(s, p), P.RaiseTerm) && P.Next(PairOf(s, p), P.RaiseTerm) == PairOf(Next(s, e), p);
    }
    hide ThreadStep;
    hide P.Next;
    hide P.Enabled;
    if own == [] {
      assert own + rest == rest;
    } else {
      P.RunCons(PairOf(s, p), own[0], rest, t);
      assert own + rest == [own[0]] + rest;
    }
  }

  lemma NextKeepsSize(s: State, e: Event)
    requires WellFormed(s) && Enabled(s, e)
    ensures WellFormed(Next(s, e)) && |Next(s, e).toFirst| == |s.toFirst| && Next(s, e).capacity == s.capacity
    ensures Next(s, e).term == (s.term || e.RaiseTerm?)
  {
    hide ThreadStep;
  }

  // Every run of all threads is, for each pair, a run of that pair alone.
  lemma {:induction false} RunProjects(s: State, es: seq<Event>, t: State, p: nat)
    requires WellFormed(s) && p < |s.toFirst| && Run(s, es, t)
    ensures WellFormed(t) && |t.toFirst| == |s.toFirst| && P.Run(PairOf(s, p), EventsOf(es, p), PairOf(t, p))
    decreases es
  {
    hide Next;
    hide Enabled;
    if es == [] {
      assert P.Run(PairOf(s, p), [], PairOf(t, p));
    } else {
      NextKeepsSize(s, es[0]);
      RunProjects(Next(s, es[0]), es[1..], t, p);
      ProjectedStep(s, es[0], p, EventsOf(es[1..], p), PairOf(t, p));
    }
  }

  // ---------- safety ----------

  predicate AllReturned(s: State) {
    forall t :: 0 <= t < |s.pcs| ==> s.pcs[t].Finished?
  }

  // In every run of all threads: each pair is in lockstep with at most two bytes in flight in
  // each direction, and one of its threads can step until both have returned.
  lemma {:induction false} EveryPairInLockstep(pairs: nat, capacity: nat, es: seq<Event>, s: State, p: nat)
    requires capacity >= 2 && Run(Init(pairs, capacity), es, s) && p < pairs
    ensures Sized(s, pairs)
    ensures s.counts[2 * p] <= s.counts[2 * p + 1] + 1 && s.counts[2 * p + 1] <= s.counts[2 * p] + 1
    ensures s.toSecond[p] <= 2 && s.toFirst[p] <= 2
    ensures (s.pcs[2 * p].Finished? && s.pcs[2 * p + 1].Finished?)
         || Enabled(s, Step(2 * p)) || Enabled(s, Step(2 * p + 1))
  {
    hide Run;
    hide P.Run;
    hide Enabled;
    hide P.Enabled;
    hide ThreadStep;
    RunProjects(Init(pairs, capacity), es, s, p);
    assert PairOf(Init(pairs, capacity), p) == P.Init(capacity);
    P.Lockstep(capacity, EventsOf(es, p), PairOf(s, p));
    P.NeverStuck(capacity, EventsOf(es, p), PairOf(s, p));
    OwnStep(s, p, 2 * p);
    OwnStep(s, p, 2 * p + 1);
  }

  // ---------- termination ----------

  function Ranks(s: State): seq<nat>
    requires WellFormed(s)
  {
    seq(|s.toFirst|, p requires 0 <= p < |s.toFirst| => P.Rank(PairOf(s, p)))
  }

  function Steps(es: seq<Event>): nat {
    if es == [] then 0 else (if es[0].Step? then 1 else 0) + Steps(es[1..])
  }

  lemma NextChangesRank(s: State, e: Event, p: nat)
    requires WellFormed(s) && s.term && Enabled(s, e) && p < |s.toFirst|
    ensures WellFormed(Next(s, e)) && |Next(s, e).toFirst| == |s.toFirst|
    ensures P.Rank(PairOf(Next(s, e), p)) == P.Rank(PairOf(s, p)) - if e.Step? && e.thread / 2 == p then 1 else 0
  {
    NextKeepsSize(s, e);
    if e.Step? && e.thread / 2 == p {
      OwnStep(s, p, e.thread);
      P.NextDecreasesRank(PairOf(s, p), P.Step(RoleOf(e.thread)));
    } else if e.Step? {
      OtherStep(s, p, e.thread);
    }
    hide ThreadStep;
    hide Enabled;
  }

  lemma NextDecreasesRanks(s: State, e: Event)
    requires WellFormed(s) && s.term && Enabled(s, e)
    ensures WellFormed(Next(s, e)) && Next(s, e).term
    ensures Sum(Ranks(Next(s, e))) == Sum(Ranks(s)) - if e.Step? then 1 else 0
  {
    NextKeepsSize(s, e);
    var t := Next(s, e);
    var before, after := Ranks(s), Ranks(t);
    forall p | 0 <= p < |s.toFirst|
      ensures after[p] == before[p] - if e.Step? && e.thread / 2 == p then 1 else 0
    {
      NextChangesRank(s, e, p);
    }
    assert e.Step? ==> e.thread / 2 < |s.toFirst|;
    hide *;
    if e.Step? {
      var p := e.thread / 2;
      SumUpdate(before, p, after[p]);
      assert after == before[p := after[p]];
    } else {
      assert after == before;
    }
  }

  // Once the flag is up, the steps taken by all threads and those still to be taken add up to
  // a number fixed at that moment, at most eight per pair.
  lemma {:induction false} TerminationBound(s: State, es: seq<Event>, t: State)
    requires WellFormed(s) && s.term && Run(s, es, t)
    ensures WellFormed(t) && Steps(es) + Sum(Ranks(t)) == Sum(Ranks(s)) <= 8 * |s.toFirst|
    decreases es
  {
    hide Next;
    hide Enabled;
    if es != [] {
      NextDecreasesRanks(s, es[0]);
      TerminationBound(Next(s, es[0]), es[1..], t);
    }
    SumAtMost(Ranks(s), 8);
  }

  lemma {:induction false} RunSnoc(s: State, es: seq<Event>, m: State, e: Event)
    requires Run(s, es, m) && Enabled(m, e)
    ensures Run(s, es + [e], Next(m, e))
    decreases es
  {
    hide Next;
    hide Enabled;
    if es == [] {
      assert Run(Next(m, e), [e][1..], Next(m, e));
    } else {
      RunSnoc(Next(s, es[0]), es[1..], m, e);
      assert (es + [e])[1..] == es[1..] + [e];
    }
  }

  // ---------- the threads themselves ----------

  class Threads {
    const pairs: nat
    const capacity: nat
    const sockets: seq<Socket>
    var term: bool
    var toFirst: seq<nat>
    var toSecond: seq<nat>
    var pcs: seq<P.Pc>
    var counts: seq<nat>

    ghost function Abs(): State
      reads this
    {
      State(term, capacity, toFirst, toSecond, pcs, counts)
    }

    ghost predicate Valid()
      reads this
    {
      Sized(Abs(), pairs) && sockets == FlatMap(pairs)
    }

    constructor (pairs: nat, capacity: nat)
      ensures this.pairs == pairs && this.capacity == capacity && Valid() && Abs() == Init(pairs, capacity)
    {
      this.pairs, this.capacity := pairs, capacity;
      var flat := [];
      for p := 0 to pairs
        invariant flat == FlatMap(p)
      {
        flat := flat + [Socket(p, P.First), Socket(p, P.Second)];
      }
      sockets := flat;
      term := false;
      toFirst, toSecond := seq(pairs, _ => 0), seq(pairs, _ => 0);
      pcs, counts := seq(2 * pairs, _ => P.CheckTerm), seq(2 * pairs, _ => 0);
    }

    predicate CanStep(t: nat)
      reads this
      requires Valid()
      ensures CanStep(t) == Enabled(Abs(), Step(t))
    {
      Enabled(State(term, capacity, toFirst, toSecond, pcs, counts), Step(t))
    }

    // One byte into the socket, to be read at its other end.
    method WriteByte(k: Socket)
      requires Valid() && k.pair < pairs
      modifies this`toFirst, this`toSecond
      ensures Valid() && Abs() == SetUnread(old(Abs()), k, Unread(old(Abs()), k) + 1)
    {
      if k.end.First? {
        toSecond := toSecond[k.pair := toSecond[k.pair] + 1];
      } else {
        toFirst := toFirst[k.pair := toFirst[k.pair] + 1];
      }
    }

    method ReadByte(k: Socket)
      requires Valid() && k.pair < pairs && Readable(Abs(), k) > 0
      modifies this`toFirst, this`toSecond
      ensures Valid() && Abs() == SetReadable(old(Abs()), k, Readable(old(Abs()), k) - 1)
    {
      if k.end.First? {
        toFirst := toFirst[k.pair := toFirst[k.pair] - 1];
      } else {
        toSecond := toSecond[k.pair := toSecond[k.pair] - 1];
      }
    }

    method TakeStep(t: nat)
      requires Valid() && Enabled(Abs(), Step(t))
      modifies this`toFirst, this`toSecond, this`pcs, this`counts
      ensures Valid() && Abs() == ThreadStep(old(Abs()), t)
    {
      var first := RoleOf(t).First?;
      SocketsArePrivate(pairs, t);
      var k := sockets[t];
      hide FlatMap;
      hide Readable;
      hide Unread;
      hide SetReadable;
      hide SetUnread;
      match pcs[t]
      case CheckTerm =>
        pcs := pcs[t := if term then P.CancelWrite else if first then P.Write else P.Read];
      case Write =>
        WriteByte(k);
        pcs := pcs[t := if first then P.Read else P.CheckTerm];
        if !first { counts := counts[t := counts[t] + 1]; }
      case Read =>
        ReadByte(k);
        pcs := pcs[t := if first then P.CheckTerm else P.Write];
        if first { counts := counts[t := counts[t] + 1]; }
      case CancelWrite =>
        WriteByte(k);
        pcs := pcs[t := P.Finished];
    }

    // A thread that can step, or none when all have returned.
    method FindRunnable(ghost es: seq<Event>) returns (t: nat)
      requires Valid() && capacity >= 2 && Run(Init(pairs, capacity), es, Abs())
      ensures t <= |pcs|
      ensures t < |pcs| ==> Enabled(Abs(), Step(t))
      ensures t == |pcs| ==> AllReturned(Abs())
    {
      hide Enabled;
      t := 0;
      while t < |pcs| && !CanStep(t)
        invariant t <= |pcs|
        invariant forall u :: 0 <= u < t ==> !Enabled(Abs(), Step(u))
        decreases |pcs| - t
      {
        t := t + 1;
      }
      if t == |pcs| {
        forall u | 0 <= u < |pcs|
          ensures pcs[u].Finished?
        {
          EveryPairInLockstep(pairs, capacity, es, Abs(), u / 2);
          assert u == 2 * (u / 2) || u == 2 * (u / 2) + 1;
        }
      }
    }

    // run() over all pairs: the flag goes up at time raiseAt. Under every schedule all threads
    // return, every pair in lockstep, and the result adds up their counts.
    method RunAll(raiseAt: nat, schedule: nat -> nat) returns (total: nat, ghost es: seq<Event>)
      requires Valid() && capacity >= 2 && Abs() == Init(pairs, capacity)
      modifies this
      ensures Valid() && Run(Init(pairs, capacity), es, Abs()) && AllReturned(Abs())
      ensures forall p :: 0 <= p < pairs ==>
                counts[2 * p] <= counts[2 * p + 1] + 1 && counts[2 * p + 1] <= counts[2 * p] + 1
      ensures total == Sum(counts)
    {
      hide Ranks;
      hide Enabled;
      hide ThreadStep;
      es := [];
      var now := 0;
      var runnable: nat := FindRunnable(es);
      while runnable < |pcs| || !term
        invariant Valid() && Run(Init(pairs, capacity), es, Abs())
        invariant runnable <= |pcs|
        invariant runnable < |pcs| ==> Enabled(Abs(), Step(runnable))
        invariant runnable == |pcs| ==> AllReturned(Abs())
        decreases if term then 0 else 1, if term then 0 else raiseAt - now, Sum(Ranks(Abs()))
      {
        ghost var before, e := Abs(), RaiseTerm;
        CanRaise(before);
        if !term && (now >= raiseAt || runnable == |pcs|) {
          term := true;
        } else {
          var t := schedule(now);
          if !CanStep(t) { t := runnable; }
          e := Step(t);
          TakeStep(t);
        }
        if before.term { NextDecreasesRanks(before, e); }
        RunSnoc(Init(pairs, capacity), es, before, e);
        es := es + [e];
        now := now + 1;
        runnable := FindRunnable(es);
      }
      total := JoinCounts();
      forall p | 0 <= p < pairs
        ensures counts[2 * p] <= counts[2 * p + 1] + 1 && counts[2 * p + 1] <= counts[2 * p] + 1
      {
        EveryPairInLockstep(pairs, capacity, es, Abs(), p);
      }
    }

    // Each joined thread adds its count.
    method JoinCounts() returns (total: nat)
      ensures total == Sum(counts)
    {
      total := 0;
      for t := 0 to |counts|
        invariant total == Sum(counts[..t])
      {
        SumOfAppend(counts[..t], counts[t]);
        assert counts[..t + 1] == counts[..t] + [counts[t]];
        total := total + counts[t];
      }
      assert counts[..|counts|] == counts;
    }
  }

  lemma CanRaise(s: State)
    ensures Enabled(s, RaiseTerm)
  {
  }
}
