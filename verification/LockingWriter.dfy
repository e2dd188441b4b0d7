/**
 LockingWriter: many writers share one output behind a mutex. The output itself takes a Write
 apart and accepts it byte by byte, so without the mutex the Writes of two sources could
 interleave.
 */
module LockingWriter {
  import opened Bytes
  import opened Options
  import opened Totals
  import Scan = ScanningWriter

  // One completed Write: who wrote what.
  datatype Entry = Entry(source: nat, line: seq<byte>)

  // pending holds, for every source, the Writes it still has to make; todo is the part of the
  // holder's Write that the output has not accepted yet. log lists the completed Writes.
  datatype State = State(
    pending: seq<seq<seq<byte>>>,
    holder: Option<nat>,
    todo: seq<byte>,
    out: seq<byte>,
    log: seq<Entry>)

  function Init(sources: seq<seq<seq<byte>>>): State {
    State(sources, None, [], [], [])
  }

  // Source i can move: to lock, to have one more byte accepted, or to unlock.
  predicate Enabled(s: State, i: nat) {
    i < |s.pending| && s.pending[i] != [] && (s.holder.None? || s.holder == Some(i))
  }

  function Next(s: State, i: nat): State
    requires Enabled(s, i)
  {
    if s.holder.None? then s.(holder := Some(i), todo := s.pending[i][0])
    else if s.todo != [] then s.(out := s.out + [s.todo[0]], todo := s.todo[1..])
    else s.(holder := None,
            log := s.log + [Entry(i, s.pending[i][0])],
            pending := s.pending[i := s.pending[i][1..]])
  }

  ghost predicate Run(s: State, schedule: seq<nat>, t: State)
    decreases schedule
  {
    if schedule == [] then s == t
    else Enabled(s, schedule[0]) && Run(Next(s, schedule[0]), schedule[1..], t)
  }

  // ---------- merges ----------

  function Flatten(log: seq<Entry>): seq<byte> {
    if log == [] then [] else Flatten(log[..|log| - 1]) + log[|log| - 1].line
  }

  function Project(log: seq<Entry>, i: nat): seq<seq<byte>> {
    if log == [] then []
    else
      var last := log[|log| - 1];
      Project(log[..|log| - 1], i) + (if last.source == i then [last.line] else [])
  }

  // log interleaves the line sequences of the sources.
  ghost predicate MergeOf(log: seq<Entry>, sources: seq<seq<seq<byte>>>) {
    && (forall i :: 0 <= i < |sources| ==> Project(log, i) == sources[i])
    && (forall k :: 0 <= k < |log| ==> log[k].source < |sources|)
  }

  // ---------- the invariant ----------

  ghost predicate Inv(s: State, sources: seq<seq<seq<byte>>>) {
    && |s.pending| == |sources|
    && (forall i :: 0 <= i < |sources| ==> Project(s.log, i) + s.pending[i] == sources[i])
    && (forall k :: 0 <= k < |s.log| ==> s.log[k].source < |sources|)
    && match s.holder
       case None => s.out == Flatten(s.log)
       case Some(i) =>
         i < |s.pending| && s.pending[i] != [] && s.out + s.todo == Flatten(s.log) + s.pending[i][0]
  }

  lemma NextKeepsInv(s: State, sources: seq<seq<seq<byte>>>, i: nat)
    requires Inv(s, sources) && Enabled(s, i)
    ensures Inv(Next(s, i), sources)
  {
    var t := Next(s, i);
    if s.holder.None? {
    } else if s.todo != [] {
      assert t.out + t.todo == s.out + s.todo;
    } else {
      assert t.log[..|s.log|] == s.log;
      forall k | 0 <= k < |sources|
        ensures Project(t.log, k) + t.pending[k] == sources[k]
      {
        if k == i {
          assert [s.pending[i][0]] + t.pending[i] == s.pending[i];
          assert (Project(s.log, i) + [s.pending[i][0]]) + t.pending[i] == sources[i];
        } else {
          assert Project(t.log, k) == Project(s.log, k);
        }
      }
    }
  }

  lemma {:induction false} RunKeepsInv(s: State, sources: seq<seq<seq<byte>>>, schedule: seq<nat>, t: State)
    requires Inv(s, sources) && Run(s, schedule, t)
    ensures Inv(t, sources)
    decreases schedule
  {
    if schedule != [] {
      hide Inv;
      NextKeepsInv(s, sources, schedule[0]);
      RunKeepsInv(Next(s, schedule[0]), sources, schedule[1..], t);
    }
  }

  // Under every schedule the output is whole lines, one after the other, save the part
  // already accepted of the line being written; each source's lines appear in its order.
  lemma {:induction false} OutputIsMerge(sources: seq<seq<seq<byte>>>, schedule: seq<nat>, s: State)
    requires Run(Init(sources), schedule, s)
    ensures |s.pending| == |sources|
    ensures forall i :: 0 <= i < |sources| ==> Project(s.log, i) + s.pending[i] == sources[i]
    ensures s.holder.None? ==> s.out == Flatten(s.log)
    ensures s.holder.Some? ==>
              var i := s.holder.value;
              i < |sources| && s.pending[i] != [] && s.out + s.todo == Flatten(s.log) + s.pending[i][0]
  {
    RunKeepsInv(Init(sources), sources, schedule, s);
  }

  predicate AllWritten(s: State) {
    s.holder.None? && forall i :: 0 <= i < |s.pending| ==> s.pending[i] == []
  }

  // When every source has made all its Writes, the output is a merge of their lines.
  lemma {:induction false} FinalOutputIsMerge(sources: seq<seq<seq<byte>>>, schedule: seq<nat>, s: State)
    requires Run(Init(sources), schedule, s) && AllWritten(s)
    ensures MergeOf(s.log, sources) && s.out == Flatten(s.log)
  {
    RunKeepsInv(Init(sources), sources, schedule, s);
    forall i | 0 <= i < |sources|
      ensures Project(s.log, i) == sources[i]
    {
      assert Project(s.log, i) + s.pending[i] == sources[i];
    }
  }

  // Until then some source can move: the mutex never blocks everybody.
  lemma {:induction false} NeverStuck(sources: seq<seq<seq<byte>>>, schedule: seq<nat>, s: State) returns (i: nat)
    requires Run(Init(sources), schedule, s) && !AllWritten(s)
    ensures Enabled(s, i)
  {
    RunKeepsInv(Init(sources), sources, schedule, s);
    if s.holder.Some? {
      i := s.holder.value;
    } else {
      i :| 0 <= i < |s.pending| && s.pending[i] != [];
    }
  }

  // The steps a source needs for its Writes: two for the lock and one per byte.
  function StepsFor(lines: seq<seq<byte>>): nat {
    if lines == [] then 0 else |lines[0]| + 2 + StepsFor(lines[1..])
  }

  function Costs(pending: seq<seq<seq<byte>>>): seq<nat> {
    seq(|pending|, i requires 0 <= i < |pending| => StepsFor(pending[i]))
  }

  // The steps still to be taken: the holder's Write is partly done.
  function StepsLeft(s: State): int {
    Sum(Costs(s.pending))
    + match s.holder
      case None => 0
      case Some(i) => if i < |s.pending| && s.pending[i] != [] then |s.todo| - |s.pending[i][0]| - 1 else 0
  }

  // Whoever moves, every step is one step less.
  lemma NextMakesProgress(s: State, i: nat)
    requires Enabled(s, i)
    ensures StepsLeft(Next(s, i)) == StepsLeft(s) - 1
  {
    var t := Next(s, i);
    if s.holder.Some? && s.todo == [] {
      SumUpdate(Costs(s.pending), i, StepsFor(t.pending[i]));
      assert Costs(t.pending) == Costs(s.pending)[i := StepsFor(t.pending[i])];
    }
  }

  lemma {:induction false} RunCountsSteps(s: State, schedule: seq<nat>, t: State)
    requires Run(s, schedule, t)
    ensures |schedule| + StepsLeft(t) == StepsLeft(s)
    decreases schedule
  {
    hide Next;
    hide Enabled;
    hide StepsLeft;
    if schedule != [] {
      NextMakesProgress(s, schedule[0]);
      RunCountsSteps(Next(s, schedule[0]), schedule[1..], t);
    }
  }

  lemma StepsLeftAtLeast(s: State, sources: seq<seq<seq<byte>>>)
    requires Inv(s, sources)
    ensures StepsLeft(s) >= 0 && (StepsLeft(s) == 0 <==> AllWritten(s))
  {
    var costs := Costs(s.pending);
    if s.holder.Some? {
      SumAtLeast(costs, s.holder.value);
    } else if AllWritten(s) {
      SumOfEqual(costs, 0);
    } else {
      var i :| 0 <= i < |s.pending| && s.pending[i] != [];
      SumAtLeast(costs, i);
    }
  }

  // Every schedule ends, and those that have made all Writes are the ones of one length: one
  // step per byte and two per Write. None is longer.
  lemma {:induction false} TerminationBound(sources: seq<seq<seq<byte>>>, schedule: seq<nat>, s: State)
    requires Run(Init(sources), schedule, s)
    ensures |schedule| <= Sum(Costs(sources))
    ensures |schedule| == Sum(Costs(sources)) <==> AllWritten(s)
  {
    RunKeepsInv(Init(sources), sources, schedule, s);
    RunCountsSteps(Init(sources), schedule, s);
    StepsLeftAtLeast(s, sources);
  }

  lemma {:induction false} RunSnoc(s: State, schedule: seq<nat>, m: State, i: nat)
    requires Run(s, schedule, m) && Enabled(m, i)
    ensures Run(s, schedule + [i], Next(m, i))
    decreases schedule
  {
    hide Next;
    hide Enabled;
    if schedule == [] {
      assert Run(Next(m, i), [i][1..], Next(m, i));
    } else {
      RunSnoc(Next(s, schedule[0]), schedule[1..], m, i);
      assert (schedule + [i])[1..] == schedule[1..] + [i];
    }
  }

  // What the scanning writer of a source writes, given the Writes made to it.
  function ScannedLines(writes: seq<seq<byte>>): seq<seq<byte>> {
    Scan.Loop(Scan.Init(writes, [LF])).downstream
  }

  // Many scanning writers into one locking writer: whatever Writes each source receives, and
  // under every schedule, the output merges the lines of the sources' inputs.
  lemma {:induction false} ScannedSourcesMerge(inputs: seq<seq<seq<byte>>>, schedule: seq<nat>, s: State)
    requires var sources := seq(|inputs|, i requires 0 <= i < |inputs| => ScannedLines(inputs[i]));
             Run(Init(sources), schedule, s) && AllWritten(s)
    ensures s.out == Flatten(s.log)
    ensures forall i :: 0 <= i < |inputs| ==>
              Project(s.log, i) == Scan.WithDelimiter(Scan.Lines(Concat(inputs[i])), [LF])
  {
    var sources := seq(|inputs|, i requires 0 <= i < |inputs| => ScannedLines(inputs[i]));
    FinalOutputIsMerge(sources, schedule, s);
    forall i | 0 <= i < |inputs|
      ensures Project(s.log, i) == Scan.WithDelimiter(Scan.Lines(Concat(inputs[i])), [LF])
    {
      Scan.LinesAreRechunked(inputs[i], [LF]);
      assert sources[i] == ScannedLines(inputs[i]);
    }
  }

  // ---------- the writer itself ----------

  class SharedOutput {
    var pending: seq<seq<seq<byte>>>
    var holder: Option<nat>
    var todo: seq<byte>
    var out: seq<byte>
    ghost var log: seq<Entry>

    ghost function Abs(): State
      reads this
    {
      State(pending, holder, todo, out, log)
    }

    constructor (sources: seq<seq<seq<byte>>>)
      ensures Abs() == Init(sources)
    {
      pending, holder, todo, out, log := sources, None, [], [], [];
    }

    // The next step of source i inside LockingWriter.Write.
    method TakeStep(i: nat)
      requires Enabled(Abs(), i)
      modifies this
      ensures Abs() == Next(old(Abs()), i)
    {
      if holder.None? {
        holder := Some(i);
        todo := pending[i][0];
      } else if todo != [] {
        out := out + [todo[0]];
        todo := todo[1..];
      } else {
        holder := None;
        log := log + [Entry(i, pending[i][0])];
        pending := pending[i := pending[i][1..]];
      }
    }

    predicate CanStep(i: nat)
      reads this
      ensures CanStep(i) == Enabled(Abs(), i)
    {
      i < |pending| && pending[i] != [] && (holder.None? || holder == Some(i))
    }

    // Some source that can move.
    method AnySource(ghost sources: seq<seq<seq<byte>>>, ghost taken: seq<nat>) returns (i: nat)
      requires Run(Init(sources), taken, Abs()) && !AllWritten(Abs())
      ensures Enabled(Abs(), i)
    {
      ghost var d := NeverStuck(sources, taken, Abs());
      i := 0;
      while !CanStep(i)
        invariant i <= d
        decreases d - i
      {
        i := i + 1;
      }
    }

    // All sources making all their Writes, at every schedule: in the end the output is a merge
    // of their lines.
    method WriteAll(schedule: nat -> nat, ghost sources: seq<seq<seq<byte>>>) returns (ghost taken: seq<nat>)
      requires Abs() == Init(sources)
      modifies this
      ensures Run(Init(sources), taken, Abs()) && AllWritten(Abs())
      ensures MergeOf(log, sources) && out == Flatten(log)
    {
      taken := [];
      var t := 0;
      hide Next;
      while holder.Some? || exists i :: 0 <= i < |pending| && pending[i] != []
        invariant Run(Init(sources), taken, Abs())
        decreases Sum(Costs(sources)) - |taken|
      {
        ghost var before := Abs();
        var i := schedule(t);
        if !CanStep(i) { i := AnySource(sources, taken); }
        TakeStep(i);
        RunSnoc(Init(sources), taken, before, i);
        taken := taken + [i];
        TerminationBound(sources, taken, Abs());
        t := t + 1;
      }
      FinalOutputIsMerge(sources, taken, Abs());
    }
  }
}
