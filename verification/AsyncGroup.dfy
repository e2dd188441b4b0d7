/**
 All tasks of one async run, on one single-threaded runtime. Tasks 2p and 2p + 1 are the two
 ends of pair p, with streams, notifications and a barrier of their own; but a socket call
 that blocks, blocks the runtime for all of them. One that panics makes the whole result an
 error. The model stops at the first call of either kind.
 */
module AsyncGroup {
  import opened Totals
  import P = AsyncProtocol

  // The runners are pushed pair by pair: which pair task t belongs to, and which end it is.
  function PairOfTask(t: nat): nat { t / 2 }

  function RoleOf(t: nat): P.Task { if t % 2 == 0 then P.First else P.Second }

  // Every step is one task's; the flag is raised for all pairs at once.
  datatype Event = RaiseTerm | Step(task: nat)

  function Init(pairs: nat, capacity: nat): seq<P.State> {
    seq(pairs, _ => P.Init(capacity))
  }

  // Some socket call has blocked or panicked.
  predicate Halted(s: seq<P.State>) {
    exists p :: 0 <= p < |s| && s[p].fault
  }

  predicate Enabled(s: seq<P.State>, e: Event) {
    e.Step? ==>
      && !Halted(s)
      && PairOfTask(e.task) < |s| && P.Enabled(s[PairOfTask(e.task)], P.Step(RoleOf(e.task)))
  }

  function Next(s: seq<P.State>, e: Event): (t: seq<P.State>)
    requires Enabled(s, e)
    ensures |t| == |s|
  {
    match e
    case RaiseTerm => seq(|s|, p requires 0 <= p < |s| => P.Next(s[p], P.RaiseTerm))
    case Step(t) => s[PairOfTask(t) := P.Next(s[PairOfTask(t)], P.Step(RoleOf(t)))]
  }

  ghost predicate Run(s: seq<P.State>, es: seq<Event>, t: seq<P.State>)
    decreases es
  {
    if es == [] then s == t else Enabled(s, es[0]) && Run(Next(s, es[0]), es[1..], t)
  }

  // What pair p sees of an event.
  function EventOf(e: Event, p: nat): seq<P.Event> {
    match e
    case RaiseTerm => [P.RaiseTerm]
    case Step(t) => if PairOfTask(t) == p then [P.Step(RoleOf(t))] else []
  }

  function EventsOf(es: seq<Event>, p: nat): seq<P.Event> {
    if es == [] then [] else EventOf(es[0], p) + EventsOf(es[1..], p)
  }

  // Every run of all tasks is, for each pair, a run of that pair alone.
  lemma {:induction false} RunProjects(s: seq<P.State>, es: seq<Event>, t: seq<P.State>, p: nat)
    requires p < |s| && Run(s, es, t)
    ensures |t| == |s| && P.Run(s[p], EventsOf(es, p), t[p])
    decreases es
  {
    hide P.Next;
    hide P.Enabled;
    if es != [] {
      RunProjects(Next(s, es[0]), es[1..], t, p);
      ProjectedStep(s, es[0], p, EventsOf(es[1..], p), t[p]);
    }
  }

  lemma ProjectedStep(s: seq<P.State>, e: Event, p: nat, rest: seq<P.Event>, t: P.State)
    requires p < |s| && Enabled(s, e) && P.Run(Next(s, e)[p], rest, t)
    ensures P.Run(s[p], EventOf(e, p) + rest, t)
  {
    var own := EventOf(e, p);
    assert e.RaiseTerm? ==> P.Enabled(s[p], P.RaiseTerm);
    hide P.Next;
    hide P.Enabled;
    hide Halted;
    if own == [] {
      assert own + rest == rest;
    } else {
      P.RunCons(s[p], own[0], rest, t);
      assert own + rest == [own[0]] + rest;
    }
  }

  // ---------- safety ----------

  predicate AllReturned(s: seq<P.State>) {
    forall p :: 0 <= p < |s| ==> s[p].pc1.Finished? && s[p].pc2.Finished?
  }

  lemma NoPairFaults(pairs: nat, capacity: nat, es: seq<Event>, s: seq<P.State>, p: nat)
    requires capacity >= 2 && Run(Init(pairs, capacity), es, s) && p < pairs
    ensures |s| == pairs && !s[p].fault && -1 <= s[p].count1 - s[p].count2 <= 1
    ensures (s[p].pc1.Finished? && s[p].pc2.Finished?)
         || P.Enabled(s[p], P.Step(P.First)) || P.Enabled(s[p], P.Step(P.Second))
  {
    RunProjects(Init(pairs, capacity), es, s, p);
    hide P.Run;
    hide P.Enabled;
    P.NoCallBlocksOrFails(capacity, EventsOf(es, p), s[p]);
    P.NeverStuck(capacity, EventsOf(es, p), s[p]);
  }

  // With room for two bytes per direction no schedule of all tasks halts the runtime, each pair
  // stays within one iteration, and until both its tasks have returned one of them can run.
  lemma {:induction false} RuntimeNeverHalts(pairs: nat, capacity: nat, es: seq<Event>, s: seq<P.State>)
    requires capacity >= 2 && Run(Init(pairs, capacity), es, s)
    ensures |s| == pairs && !Halted(s)
    ensures forall p :: 0 <= p < pairs ==>
              && -1 <= s[p].count1 - s[p].count2 <= 1
              && ((s[p].pc1.Finished? && s[p].pc2.Finished?)
                  || Enabled(s, Step(2 * p)) || Enabled(s, Step(2 * p + 1)))
  {
    RunKeepsSize(Init(pairs, capacity), es, s);
    hide P.Enabled;
    forall p | 0 <= p < pairs
      ensures !s[p].fault && -1 <= s[p].count1 - s[p].count2 <= 1
      ensures (s[p].pc1.Finished? && s[p].pc2.Finished?)
           || P.Enabled(s[p], P.Step(P.First)) || P.Enabled(s[p], P.Step(P.Second))
    {
      NoPairFaults(pairs, capacity, es, s, p);
    }
    forall p | 0 <= p < pairs
      ensures PairOfTask(2 * p) == PairOfTask(2 * p + 1) == p
      ensures RoleOf(2 * p) == P.First && RoleOf(2 * p + 1) == P.Second
    {}
  }

  lemma {:induction false} RunKeepsSize(s: seq<P.State>, es: seq<Event>, t: seq<P.State>)
    requires Run(s, es, t)
    ensures |t| == |s|
    decreases es
  {
    hide Enabled;
    if es != [] { RunKeepsSize(Next(s, es[0]), es[1..], t); }
  }

  ghost predicate Reachable(pairs: nat, capacity: nat, s: seq<P.State>) {
    exists es :: Run(Init(pairs, capacity), es, s)
  }

  // The tasks of one pair run up to their first fault, while the other pairs only see the flag.
  lemma {:induction false} LiftToFault(s: seq<P.State>, p: nat, fs: seq<P.Event>, u: P.State)
      returns (es: seq<Event>, t: seq<P.State>)
    requires p < |s| && P.Run(s[p], fs, u) && u.fault && (forall q :: 0 <= q < |s| && q != p ==> !s[q].fault)
    ensures Run(s, es, t) && Halted(t)
    decreases fs
  {
    if s[p].fault {
      es, t := [], s;
    } else {
      var e := if fs[0].RaiseTerm? then RaiseTerm else Step(2 * p + if fs[0].t.First? then 0 else 1);
      assert !Halted(s) && Enabled(s, e);
      StepInGroup(s, p, fs[0], e);
      hide P.Next;
      hide P.Enabled;
      hide Next;
      hide Enabled;
      var rest;
      rest, t := LiftToFault(Next(s, e), p, fs[1..], u);
      es := [e] + rest;
      assert es[1..] == rest;
    }
  }

  lemma StepInGroup(s: seq<P.State>, p: nat, f: P.Event, e: Event)
    requires p < |s| && !Halted(s) && P.Enabled(s[p], f) && Enabled(s, e)
    requires e == if f.RaiseTerm? then RaiseTerm else Step(2 * p + if f.t.First? then 0 else 1)
    ensures Next(s, e)[p] == P.Next(s[p], f)
    ensures forall q :: 0 <= q < |s| && q != p ==> !Next(s, e)[q].fault
  {
    hide P.StepFirst;
    hide P.StepSecond;
  }

  // Room for two bytes is exactly what the whole run needs: with less, one pair can stop all.
  lemma {:induction false} HaltsIff(pairs: nat, capacity: nat)
    ensures (exists s :: Reachable(pairs, capacity, s) && Halted(s)) <==> pairs > 0 && capacity < 2
  {
    if pairs > 0 && capacity < 2 {
      var fs, u := P.FaultBelowTwo(capacity);
      var es, s := LiftToFault(Init(pairs, capacity), 0, fs, u);
      assert Reachable(pairs, capacity, s);
    }
    forall s | Reachable(pairs, capacity, s) && Halted(s)
      ensures pairs > 0 && capacity < 2
    {
      var es :| Run(Init(pairs, capacity), es, s);
      RunKeepsSize(Init(pairs, capacity), es, s);
      if capacity >= 2 { RuntimeNeverHalts(pairs, capacity, es, s); }
    }
  }

  // ---------- termination ----------

  predicate Raised(s: seq<P.State>) {
    forall p :: 0 <= p < |s| ==> s[p].term
  }

  function Ranks(s: seq<P.State>): seq<nat> {
    seq(|s|, p requires 0 <= p < |s| => P.Rank(s[p]))
  }

  function Steps(es: seq<Event>): nat {
    if es == [] then 0 else (if es[0].Step? then 1 else 0) + Steps(es[1..])
  }

  lemma NextDecreasesRanks(s: seq<P.State>, e: Event)
    requires Raised(s) && Enabled(s, e)
    ensures Raised(Next(s, e))
    ensures Sum(Ranks(Next(s, e))) + (if e.Step? then 1 else 0) <= Sum(Ranks(s))
  {
    var t := Next(s, e);
    if e.RaiseTerm? {
      forall p | 0 <= p < |s| ensures t[p].term && P.Rank(t[p]) == P.Rank(s[p]) {
        P.NextDecreasesRank(s[p], P.RaiseTerm);
      }
      hide P.Rank;
      assert Ranks(t) == Ranks(s);
    } else {
      var p := PairOfTask(e.task);
      P.NextDecreasesRank(s[p], P.Step(RoleOf(e.task)));
      hide P.Rank;
      hide P.Next;
      SumUpdate(Ranks(s), p, P.Rank(t[p]));
      assert Ranks(t) == Ranks(s)[p := P.Rank(t[p])];
    }
  }

  // Once the flag is up, all tasks together take at most twelve more segments per pair.
  lemma {:induction false} TerminationBound(s: seq<P.State>, es: seq<Event>, t: seq<P.State>)
    requires Raised(s) && Run(s, es, t)
    ensures Steps(es) + Sum(Ranks(t)) <= Sum(Ranks(s)) <= 12 * |s|
    decreases es
  {
    hide Next;
    hide Enabled;
    hide Ranks;
    hide Raised;
    if es != [] {
      NextDecreasesRanks(s, es[0]);
      TerminationBound(Next(s, es[0]), es[1..], t);
    }
    RanksAtMost(s);
  }

  lemma RanksAtMost(s: seq<P.State>)
    ensures Sum(Ranks(s)) <= 12 * |s|
  {
    SumAtMost(Ranks(s), 12);
  }

  lemma {:induction false} RunSnoc(s: seq<P.State>, es: seq<Event>, m: seq<P.State>, e: Event)
    requires Run(s, es, m) && Enabled(m, e)
    ensures Run(s, es + [e], Next(m, e))
    decreases es
  {
    hide Next;
    hide Enabled;
    if es == [] {
      assert Run(Next(m, e), [e][1..], Next(m, e));
    } else {
      RunSnoc(Next(s, es[0]), es[1..], m, e);
      assert (es + [e])[1..] == es[1..] + [e];
    }
  }

  // ---------- the tasks themselves ----------

  lemma NoneReady(pairs: nat, capacity: nat, es: seq<Event>, s: seq<P.State>)
    requires capacity >= 2 && Run(Init(pairs, capacity), es, s)
    requires forall t :: 0 <= t < 2 * pairs ==> !Enabled(s, Step(t))
    ensures AllReturned(s)
  {
    RuntimeNeverHalts(pairs, capacity, es, s);
    hide Enabled;
    hide Run;
    forall p | 0 <= p < |s|
      ensures s[p].pc1.Finished? && s[p].pc2.Finished?
    {
      assert !Enabled(s, Step(2 * p)) && !Enabled(s, Step(2 * p + 1));
    }
  }

  class Tasks {
    const capacity: nat
    const pairs: seq<P.AsyncPair>

    ghost function Abs(): (s: seq<P.State>)
      reads pairs
      ensures |s| == |pairs| && forall p :: 0 <= p < |pairs| ==> s[p] == pairs[p].Abs()
    {
      seq(|pairs|, p requires 0 <= p < |pairs| reads pairs => pairs[p].Abs())
    }

    ghost function Counts(): (r: seq<nat>)
      reads pairs
      ensures |r| == |pairs| && forall p :: 0 <= p < |pairs| ==> r[p] == pairs[p].count1 + pairs[p].count2
    {
      seq(|pairs|, p requires 0 <= p < |pairs| reads pairs => pairs[p].count1 + pairs[p].count2)
    }

    ghost predicate Valid() {
      forall i, j :: 0 <= i < j < |pairs| ==> pairs[i] != pairs[j]
    }

    constructor (n: nat, capacity: nat)
      ensures Valid() && |pairs| == n && this.capacity == capacity && Abs() == Init(n, capacity)
      ensures forall p :: p in pairs ==> fresh(p)
    {
      this.capacity := capacity;
      var made: seq<P.AsyncPair> := [];
      for k := 0 to n
        invariant |made| == k
        invariant forall i, j :: 0 <= i < j < k ==> made[i] != made[j]
        invariant forall i :: 0 <= i < k ==> fresh(made[i]) && made[i].Abs() == P.Init(capacity)
      {
        var pair := new P.AsyncPair(capacity);
        made := made + [pair];
      }
      pairs := made;
    }

    // The one flag, as every pair sees it.
    method Raise()
      requires Valid()
      modifies pairs
      ensures Abs() == Next(old(Abs()), RaiseTerm)
    {
      for k := 0 to |pairs|
        invariant forall i :: 0 <= i < k ==> pairs[i].Abs() == P.Next(old(pairs[i].Abs()), P.RaiseTerm)
        invariant forall i :: k <= i < |pairs| ==> pairs[i].Abs() == old(pairs[i].Abs())
      {
        pairs[k].term := true;
      }
    }

    method TakeStep(t: nat)
      requires Valid() && Enabled(Abs(), Step(t))
      modifies pairs[PairOfTask(t)]
      ensures Abs() == Next(old(Abs()), Step(t))
    {
      hide P.StepFirst;
      hide P.StepSecond;
      if RoleOf(t).First? {
        pairs[PairOfTask(t)].TakeStepFirst();
      } else {
        pairs[PairOfTask(t)].TakeStepSecond();
      }
    }

    // A task that is ready, or none when all have returned.
    method FindReady(ghost es: seq<Event>) returns (t: nat)
      requires Valid() && capacity >= 2 && Run(Init(|pairs|, capacity), es, Abs())
      ensures t <= 2 * |pairs|
      ensures t < 2 * |pairs| ==> Enabled(Abs(), Step(t))
      ensures t == 2 * |pairs| ==> AllReturned(Abs())
    {
      hide *;
      RuntimeNeverHalts(|pairs|, capacity, es, Abs());
      t := 0;
      while t < 2 * |pairs| && !CanStep(t)
        invariant t <= 2 * |pairs|
        invariant forall u :: 0 <= u < t ==> !Enabled(Abs(), Step(u))
        decreases 2 * |pairs| - t
      {
        t := t + 1;
      }
      if t == 2 * |pairs| {
        NoneReady(|pairs|, capacity, es, Abs());
      }
    }

    // run_async() over all pairs: the flag goes up at time raiseAt. Under every schedule all
    // tasks return, no call has blocked or panicked, and the result adds up their counts.
    method RunAll(raiseAt: nat, schedule: nat -> nat) returns (total: nat, ghost es: seq<Event>)
      requires Valid() && capacity >= 2 && Abs() == Init(|pairs|, capacity)
      modifies pairs
      ensures Run(Init(|pairs|, capacity), es, Abs()) && AllReturned(Abs())
      ensures !Halted(Abs())
      ensures forall p :: 0 <= p < |pairs| ==> -1 <= pairs[p].count1 - pairs[p].count2 <= 1
      ensures total == Sum(Counts())
    {
      hide Ranks;
      hide Next;
      hide Enabled;
      hide Halted;
      hide AllReturned;
      hide Raised;
      hide P.Enabled;
      es := [];
      var now, raised := 0, false;
      var ready: nat := FindReady(es);
      while ready < 2 * |pairs| || !raised
        invariant Run(Init(|pairs|, capacity), es, Abs())
        invariant raised ==> Raised(Abs())
        invariant ready <= 2 * |pairs|
        invariant ready < 2 * |pairs| ==> Enabled(Abs(), Step(ready))
        invariant ready == 2 * |pairs| ==> AllReturned(Abs())
        decreases if raised then 0 else 1, if raised then 0 else raiseAt - now, Sum(Ranks(Abs()))
      {
        ghost var before, e := Abs(), RaiseTerm;
        CanRaise(before);
        RuntimeNeverHalts(|pairs|, capacity, es, before);
        if !raised && (now >= raiseAt || ready == 2 * |pairs|) {
          Raise();
          NowRaised(before);
        } else {
          var t := schedule(now);
          if !CanStep(t) { t := ready; }
          e := Step(t);
          TakeStep(t);
        }
        if raised { NextDecreasesRanks(before, e); }
        raised := raised || now >= raiseAt || ready == 2 * |pairs|;
        RunSnoc(Init(|pairs|, capacity), es, before, e);
        es := es + [e];
        now := now + 1;
        ready := FindReady(es);
      }
      total := JoinCounts();
      RuntimeNeverHalts(|pairs|, capacity, es, Abs());
    }

    predicate CanStep(t: nat)
      reads pairs
      ensures Enabled(Abs(), Step(t)) <==> CanStep(t) && !Halted(Abs())
    {
      PairOfTask(t) < |pairs| && pairs[PairOfTask(t)].CanStep(RoleOf(t))
    }

    // join_next over all tasks adds up their counts.
    method JoinCounts() returns (total: nat)
      ensures total == Sum(Counts())
    {
      ghost var counts := Counts();
      total := 0;
      for p := 0 to |pairs|
        invariant total == Sum(counts[..p])
      {
        SumOfAppend(counts[..p], counts[p]);
        assert counts[..p + 1] == counts[..p] + [counts[p]];
        total := total + pairs[p].count1 + pairs[p].count2;
      }
      assert counts[..|pairs|] == counts;
    }
  }

  lemma CanRaise(s: seq<P.State>)
    ensures Enabled(s, RaiseTerm)
  {
  }

  lemma NowRaised(s: seq<P.State>)
    ensures Enabled(s, RaiseTerm) && Raised(Next(s, RaiseTerm))
  {
  }
}
