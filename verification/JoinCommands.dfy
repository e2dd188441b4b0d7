/**
 Joining supervised commands. One goroutine per started command waits for it and hands its
 result over an unbuffered channel; a receive loop closes the command's writers, collects
 errors and cancels the rest. Commands end in any order and with any result.
 */
module JoinCommands {
  import opened Options
  import opened Totals

  // What Wait returned: nothing, an exit status (code -1 when killed by a signal), or
  // an error that is no exit status.
  datatype WaitError = NoError | ExitError(code: int, signal: int) | OtherError

  const SIGTERM := 15
  const CODE_OF_SIGTERM := 143

  predicate DidExitGracefully(err: WaitError) {
    match err
    case NoError => true
    case OtherError => false
    case ExitError(code, signal) => code == CODE_OF_SIGTERM || signal == SIGTERM
  }

  datatype Writer = NotCloser | ClosesWell | FailsToClose

  // One entry of the commands slice: never created, created but not started, or running.
  datatype Slot = NotCreated | NotStarted | Started(stdout: Writer, stderr: Writer)

  datatype Receipt = Receipt(idx: nat, err: WaitError)

  datatype Report =
    | StdoutError(idx: nat)
    | StderrError(idx: nat)
    | CommandError(idx: nat, cause: WaitError)

  // ---------- specification over the order of receipts ----------

  predicate EndsTheRest(r: Receipt) {
    r.idx == 0 || !DidExitGracefully(r.err)
  }

  function ReportsOf(slots: seq<Slot>, r: Receipt): seq<Report> {
    var slot := if r.idx < |slots| then slots[r.idx] else NotCreated;
    (if slot.Started? && slot.stdout.FailsToClose? then [StdoutError(r.idx)] else [])
    + (if slot.Started? && slot.stderr.FailsToClose? then [StderrError(r.idx)] else [])
    + (if DidExitGracefully(r.err) then [] else [CommandError(r.idx, r.err)])
  }

  function AllReports(slots: seq<Slot>, received: seq<Receipt>): seq<Report> {
    if received == [] then []
    else AllReports(slots, received[..|received| - 1]) + ReportsOf(slots, received[|received| - 1])
  }

  function NongracefulOf(received: seq<Receipt>): seq<Report> {
    if received == [] then []
    else
      var last := received[|received| - 1];
      NongracefulOf(received[..|received| - 1])
      + (if IsFailure(last.err) then [CommandError(last.idx, last.err)] else [])
  }

  // A command failed if it could not be waited for, or ended with a status other than 0 and
  // 143 and not by signal 15.
  predicate IsFailure(err: WaitError) {
    err.OtherError? || (err.ExitError? && err.code != 143 && err.signal != 15)
  }

  predicate SomeEndsTheRest(received: seq<Receipt>) {
    exists r :: r in received && (r.idx == 0 || IsFailure(r.err))
  }

  // ---------- the protocol ----------

  datatype Phase = Skipped | Running | Waited(err: WaitError) | Joined(err: WaitError)

  datatype State = State(
    phases: seq<Phase>,       // the waiting goroutines
    finishedCount: nat,
    reports: seq<Report>,     // the joined error
    onceFired: bool,
    cancels: nat,             // calls of cancelFunc
    returned: bool,
    received: seq<Receipt>)   // history: receipts in completion order

  datatype Event = Finish(idx: nat, err: WaitError) | Receive(idx: nat)

  function StartedFlags(slots: seq<Slot>): seq<nat> {
    seq(|slots|, i requires 0 <= i < |slots| => if slots[i].Started? then 1 else 0)
  }

  function StartedCount(slots: seq<Slot>): nat {
    Sum(StartedFlags(slots))
  }

  function Init(slots: seq<Slot>): State {
    State(
      seq(|slots|, i requires 0 <= i < |slots| => if slots[i].Started? then Running else Skipped),
      0, [], false, 0, StartedCount(slots) == 0, [])
  }

  predicate Enabled(s: State, e: Event) {
    && e.idx < |s.phases|
    && match e
       case Finish(i, _) => s.phases[i].Running?
       case Receive(i) => !s.returned && s.phases[i].Waited?
  }

  function Next(slots: seq<Slot>, s: State, e: Event): State
    requires Enabled(s, e)
  {
    match e
    case Finish(i, err) => s.(phases := s.phases[i := Waited(err)])
    case Receive(i) =>
      var r := Receipt(i, s.phases[i].err);
      var fires := EndsTheRest(r) && !s.onceFired;
      State(
        s.phases[i := Joined(r.err)],
        s.finishedCount + 1,
        s.reports + ReportsOf(slots, r),
        s.onceFired || fires,
        s.cancels + (if fires then 1 else 0),
        s.finishedCount + 1 == StartedCount(slots),
        s.received + [r])
  }

  predicate Run(slots: seq<Slot>, s: State, es: seq<Event>, t: State)
    decreases es
  {
    if es == [] then t == s
    else Enabled(s, es[0]) && Run(slots, Next(slots, s, es[0]), es[1..], t)
  }

  function JoinedFlags(s: State): seq<nat> {
    seq(|s.phases|, i requires 0 <= i < |s.phases| => if s.phases[i].Joined? then 1 else 0)
  }

  ghost predicate SlotsInv(slots: seq<Slot>, s: State) {
    && |s.phases| == |slots|
    && (forall i :: 0 <= i < |slots| ==> (s.phases[i].Skipped? <==> !slots[i].Started?))
    && s.finishedCount == |s.received| == Sum(JoinedFlags(s))
    && (s.returned <==> s.finishedCount == StartedCount(slots))
  }

  ghost predicate HistoryInv(s: State) {
    && (forall k :: 0 <= k < |s.received| ==>
          s.received[k].idx < |s.phases| && s.phases[s.received[k].idx] == Joined(s.received[k].err))
    && (forall j, k :: 0 <= j < k < |s.received| ==> s.received[j].idx != s.received[k].idx)
    && (forall i :: 0 <= i < |s.phases| && s.phases[i].Joined? ==>
          exists k :: 0 <= k < |s.received| && s.received[k].idx == i)
  }

  ghost predicate ReportInv(slots: seq<Slot>, s: State) {
    && s.reports == AllReports(slots, s.received)
    && (s.onceFired <==> SomeEndsTheRest(s.received))
    && s.cancels == (if s.onceFired then 1 else 0)
  }

  ghost predicate Inv(slots: seq<Slot>, s: State) {
    SlotsInv(slots, s) && HistoryInv(s) && ReportInv(slots, s)
  }

  lemma InitInv(slots: seq<Slot>)
    ensures Inv(slots, Init(slots))
  {
    SumOfEqual(JoinedFlags(Init(slots)), 0);
  }

  lemma FlagsAfter(s: State, i: nat, p: Phase)
    requires i < |s.phases| && !s.phases[i].Joined?
    ensures Sum(JoinedFlags(s.(phases := s.phases[i := p]))) == Sum(JoinedFlags(s)) + if p.Joined? then 1 else 0
  {
    var k := if p.Joined? then 1 else 0;
    SumUpdate(JoinedFlags(s), i, k);
    assert JoinedFlags(s.(phases := s.phases[i := p])) == JoinedFlags(s)[i := k];
  }

  lemma NextKeepsSlots(slots: seq<Slot>, s: State, e: Event)
    requires SlotsInv(slots, s) && Enabled(s, e)
    ensures SlotsInv(slots, Next(slots, s, e))
  {
    var t := Next(slots, s, e);
    FlagsAfter(s, e.idx, t.phases[e.idx]);
    assert JoinedFlags(t) == JoinedFlags(s.(phases := t.phases));
    if e.Finish? && s.returned {
      // A late Finish is impossible: all started commands are joined.
      AllJoined(slots, s);
      assert false;
    }
  }

  lemma AllJoined(slots: seq<Slot>, s: State)
    requires SlotsInv(slots, s)
    ensures s.returned <==> forall i :: 0 <= i < |slots| && slots[i].Started? ==> s.phases[i].Joined?
  {
    if forall i :: 0 <= i < |slots| && slots[i].Started? ==> s.phases[i].Joined? {
      assert JoinedFlags(s) == StartedFlags(slots);
    }
    if s.returned {
      SumsOfOrderedAgree(JoinedFlags(s), StartedFlags(slots));
      forall i | 0 <= i < |slots| && slots[i].Started?
        ensures s.phases[i].Joined?
      {
        assert JoinedFlags(s)[i] == StartedFlags(slots)[i];
      }
    }
  }

  lemma NextKeepsHistory(slots: seq<Slot>, s: State, e: Event)
    requires HistoryInv(s) && Enabled(s, e)
    ensures HistoryInv(Next(slots, s, e))
  {
    var t := Next(slots, s, e);
    hide ReportsOf;
    hide StartedCount;
    if e.Receive? {
      assert t.received == s.received + [Receipt(e.idx, s.phases[e.idx].err)];
      assert t.phases == s.phases[e.idx := Joined(s.phases[e.idx].err)];
      hide Next;
      assert t.received[|s.received|].idx == e.idx;
      forall i | 0 <= i < |t.phases| && t.phases[i].Joined?
        ensures exists k :: 0 <= k < |t.received| && t.received[k].idx == i
      {
        if i != e.idx {
          var k :| 0 <= k < |s.received| && s.received[k].idx == i;
          assert t.received[k].idx == i;
        }
      }
    }
  }

  lemma NextKeepsReports(slots: seq<Slot>, s: State, e: Event)
    requires ReportInv(slots, s) && Enabled(s, e)
    ensures ReportInv(slots, Next(slots, s, e))
  {
    if e.Receive? {
      var r := Receipt(e.idx, s.phases[e.idx].err);
      OneMoreReceipt(slots, s.received, r);
      hide AllReports;
      hide ReportsOf;
      hide SomeEndsTheRest;
      hide EndsTheRest;
      hide StartedCount;
    }
  }

  lemma OneMoreReceipt(slots: seq<Slot>, received: seq<Receipt>, r: Receipt)
    ensures AllReports(slots, received + [r]) == AllReports(slots, received) + ReportsOf(slots, r)
    ensures SomeEndsTheRest(received + [r]) <==> SomeEndsTheRest(received) || EndsTheRest(r)
  {
    assert (received + [r])[..|received|] == received;
    assert forall q :: q in received + [r] <==> q in received || q == r;
    hide ReportsOf;
  }

  lemma {:induction false} RunKeepsInv(slots: seq<Slot>, s: State, es: seq<Event>, t: State)
    requires Inv(slots, s) && Run(slots, s, es, t)
    ensures Inv(slots, t)
    decreases es
  {
    if es != [] {
      NextKeepsSlots(slots, s, es[0]);
      NextKeepsHistory(slots, s, es[0]);
      NextKeepsReports(slots, s, es[0]);
      RunKeepsInv(slots, Next(slots, s, es[0]), es[1..], t);
    }
  }

  // ---------- what the loop promises ----------

  predicate OncePerCommand(received: seq<Receipt>) {
    forall j, k :: 0 <= j < k < |received| ==> received[j].idx != received[k].idx
  }

  // At every point no command is received twice or without having been started; the loop has
  // returned exactly when every started command has been received.
  lemma {:induction false} OneReceiptPerCommand(slots: seq<Slot>, es: seq<Event>, s: State)
    requires Run(slots, Init(slots), es, s)
    ensures OncePerCommand(s.received)
    ensures forall r :: r in s.received ==> r.idx < |slots| && slots[r.idx].Started?
    ensures s.returned <==>
              forall i :: 0 <= i < |slots| && slots[i].Started? ==> exists r :: r in s.received && r.idx == i
  {
    InitInv(slots);
    RunKeepsInv(slots, Init(slots), es, s);
    AllJoined(slots, s);
  }

  // Each receipt carries what that command's Wait returned.
  lemma {:induction false} ReceiptsAreWaitResults(slots: seq<Slot>, es: seq<Event>, s: State)
    requires Run(slots, Init(slots), es, s)
    ensures forall r :: r in s.received ==> Finish(r.idx, r.err) in es
  {
    InitInv(slots);
    RunKeepsInv(slots, Init(slots), es, s);
    forall r | r in s.received
      ensures Finish(r.idx, r.err) in es
    {
      var k :| 0 <= k < |s.received| && s.received[k] == r;
      EndedByWait(slots, Init(slots), es, s, r.idx);
    }
  }

  lemma {:induction false} EndedByWait(slots: seq<Slot>, s: State, es: seq<Event>, t: State, i: nat)
    requires Run(slots, s, es, t) && i < |s.phases| && (s.phases[i].Running? || s.phases[i].Skipped?)
    ensures |t.phases| == |s.phases|
    ensures t.phases[i].Waited? || t.phases[i].Joined? ==> Finish(i, t.phases[i].err) in es
    decreases es
  {
    if es != [] {
      var m := Next(slots, s, es[0]);
      if m.phases[i].Waited? {
        StaysEnded(slots, m, es[1..], t, i);
      } else {
        EndedByWait(slots, m, es[1..], t, i);
      }
    }
  }

  lemma {:induction false} StaysEnded(slots: seq<Slot>, s: State, es: seq<Event>, t: State, i: nat)
    requires Run(slots, s, es, t) && i < |s.phases| && (s.phases[i].Waited? || s.phases[i].Joined?)
    ensures |t.phases| == |s.phases|
    ensures (t.phases[i].Waited? || t.phases[i].Joined?) && t.phases[i].err == s.phases[i].err
    decreases es
  {
    if es != [] {
      StaysEnded(slots, Next(slots, s, es[0]), es[1..], t, i);
    }
  }

  // The joined error lists, receipt by receipt, the failed closes and the nongraceful exit.
  // The rest is cancelled once as soon as the first command or a nongraceful one is received,
  // and not before.
  lemma {:induction false} CancelsOnceReportsInOrder(slots: seq<Slot>, es: seq<Event>, s: State)
    requires Run(slots, Init(slots), es, s)
    ensures s.reports == AllReports(slots, s.received)
    ensures s.cancels == if exists r :: r in s.received
                              && (r.idx == 0 || r.err.OtherError?
                                  || (r.err.ExitError? && r.err.code != 143 && r.err.signal != 15))
                         then 1 else 0
  {
    InitInv(slots);
    RunKeepsInv(slots, Init(slots), es, s);
  }

  // What the error lists, entry by entry.
  lemma {:induction false} EntriesOfReports(slots: seq<Slot>, received: seq<Receipt>, i: nat, err: WaitError)
    requires forall r :: r in received ==> r.idx < |slots| && slots[r.idx].Started?
    ensures StdoutError(i) in AllReports(slots, received) <==>
              exists r :: r in received && r.idx == i && slots[i].stdout.FailsToClose?
    ensures StderrError(i) in AllReports(slots, received) <==>
              exists r :: r in received && r.idx == i && slots[i].stderr.FailsToClose?
    ensures CommandError(i, err) in AllReports(slots, received) <==>
              Receipt(i, err) in received && (err.OtherError? || (err.ExitError? && err.code != 143 && err.signal != 15))
  {
    if received != [] {
      var init, last := received[..|received| - 1], received[|received| - 1];
      assert received == init + [last];
      assert forall r :: r in received <==> r in init || r == last;
      EntriesOfReports(slots, init, i, err);
      OneMoreReceipt(slots, init, last);
      EntriesOfOne(slots, last, i, err);
      hide AllReports;
      hide ReportsOf;
    }
  }

  lemma EntriesOfOne(slots: seq<Slot>, r: Receipt, i: nat, err: WaitError)
    requires r.idx < |slots| && slots[r.idx].Started?
    ensures StdoutError(i) in ReportsOf(slots, r) <==> r.idx == i && slots[i].stdout.FailsToClose?
    ensures StderrError(i) in ReportsOf(slots, r) <==> r.idx == i && slots[i].stderr.FailsToClose?
    ensures CommandError(i, err) in ReportsOf(slots, r) <==>
              Receipt(i, err) == r && (err.OtherError? || (err.ExitError? && err.code != 143 && err.signal != 15))
  {
  }

  // When the loop has returned: of each started command the error names stdout or stderr if
  // that failed to close, and the command itself if its Wait returned something other than no
  // error, exit code 143 or signal 15; it names nothing else. The rest was cancelled, once, if
  // and only if the first command was started or some command ended in that way.
  lemma {:induction false} ErrorNamesExactly(slots: seq<Slot>, es: seq<Event>, s: State)
    requires Run(slots, Init(slots), es, s) && s.returned
    ensures |s.phases| == |slots|
    ensures forall i :: 0 <= i < |slots| && slots[i].Started? ==>
              && s.phases[i].Joined?
              && (StdoutError(i) in s.reports <==> slots[i].stdout.FailsToClose?)
              && (StderrError(i) in s.reports <==> slots[i].stderr.FailsToClose?)
              && (CommandError(i, s.phases[i].err) in s.reports <==>
                    var err := s.phases[i].err;
                    err.OtherError? || (err.ExitError? && err.code != 143 && err.signal != 15))
    ensures forall rep :: rep in s.reports ==>
              && rep.idx < |slots| && slots[rep.idx].Started?
              && (rep.CommandError? ==> rep.cause == s.phases[rep.idx].err)
    ensures s.cancels == if exists i :: 0 <= i < |slots| && slots[i].Started?
                              && (i == 0 || var err := s.phases[i].err;
                                            err.OtherError? || (err.ExitError? && err.code != 143 && err.signal != 15))
                         then 1 else 0
  {
    InitInv(slots);
    RunKeepsInv(slots, Init(slots), es, s);
    AllJoined(slots, s);
    hide Run;
    forall i | 0 <= i < |slots| && slots[i].Started?
      ensures Receipt(i, s.phases[i].err) in s.received
    {
      ReceivedWith(slots, s, i);
    }
    forall r | r in s.received
      ensures r.idx < |slots| && slots[r.idx].Started? && s.phases[r.idx] == Joined(r.err)
    {}
    hide SlotsInv;
    hide HistoryInv;
    hide AllReports;
    forall i | 0 <= i < |slots| && slots[i].Started?
      ensures StdoutError(i) in s.reports <==> slots[i].stdout.FailsToClose?
      ensures StderrError(i) in s.reports <==> slots[i].stderr.FailsToClose?
      ensures CommandError(i, s.phases[i].err) in s.reports <==>
                var err := s.phases[i].err;
                err.OtherError? || (err.ExitError? && err.code != 143 && err.signal != 15)
    {
      EntriesOfReports(slots, s.received, i, s.phases[i].err);
    }
    forall rep | rep in s.reports
      ensures rep.idx < |slots| && slots[rep.idx].Started?
      ensures rep.CommandError? ==> rep.cause == s.phases[rep.idx].err
    {
      EntriesOfReports(slots, s.received, rep.idx, if rep.CommandError? then rep.cause else NoError);
    }
  }

  lemma ReceivedWith(slots: seq<Slot>, s: State, i: nat)
    requires HistoryInv(s) && i < |s.phases| && s.phases[i].Joined?
    ensures Receipt(i, s.phases[i].err) in s.received
  {
    var k :| 0 <= k < |s.received| && s.received[k].idx == i;
    assert s.received[k] == Receipt(i, s.phases[i].err);
  }

  predicate AllClose(slots: seq<Slot>) {
    forall i :: 0 <= i < |slots| && slots[i].Started? ==>
      !slots[i].stdout.FailsToClose? && !slots[i].stderr.FailsToClose?
  }

  // In every run in which the closes succeed the error names, at every point, exactly the
  // nongraceful commands received so far, in the order in which they completed.
  lemma {:induction false} ReportsAreNongraceful(slots: seq<Slot>, es: seq<Event>, s: State)
    requires Run(slots, Init(slots), es, s) && AllClose(slots)
    ensures s.reports == NongracefulOf(s.received)
  {
    CancelsOnceReportsInOrder(slots, es, s);
    OnlyExitsAreReported(slots, s.received);
  }

  lemma {:induction false} OnlyExitsAreReported(slots: seq<Slot>, received: seq<Receipt>)
    requires AllClose(slots)
    ensures AllReports(slots, received) == NongracefulOf(received)
  {
    if received != [] {
      OnlyExitsAreReported(slots, received[..|received| - 1]);
    }
  }

  lemma {:induction false} NoReportsIff(slots: seq<Slot>, received: seq<Receipt>)
    ensures AllReports(slots, received) == [] <==> forall r :: r in received ==> ReportsOf(slots, r) == []
  {
    if received != [] {
      NoReportsIff(slots, received[..|received| - 1]);
      assert received == received[..|received| - 1] + [received[|received| - 1]];
    }
  }

  predicate EndedWell(slot: Slot, p: Phase) {
    slot.Started? ==>
      && p.Joined? && !IsFailure(p.err)
      && !slot.stdout.FailsToClose? && !slot.stderr.FailsToClose?
  }

  // When the loop has returned: no error if and only if every started command ended
  // gracefully and all its writers closed.
  lemma {:induction false} NoErrorIff(slots: seq<Slot>, es: seq<Event>, s: State)
    requires Run(slots, Init(slots), es, s) && s.returned
    ensures |s.phases| == |slots|
    ensures forall i :: 0 <= i < |slots| && slots[i].Started? ==> s.phases[i].Joined?
    ensures s.reports == [] <==> forall i :: 0 <= i < |slots| ==> EndedWell(slots[i], s.phases[i])
  {
    InitInv(slots);
    RunKeepsInv(slots, Init(slots), es, s);
    AllJoined(slots, s);
    NoReportsIff(slots, s.received);
    SilentIffEndedWell(slots, s);
  }

  lemma NoReportOf(slots: seq<Slot>, r: Receipt)
    requires r.idx < |slots| && slots[r.idx].Started?
    ensures ReportsOf(slots, r) == [] <==> EndedWell(slots[r.idx], Joined(r.err))
  {}

  lemma SilentIffEndedWell(slots: seq<Slot>, s: State)
    requires SlotsInv(slots, s) && HistoryInv(s)
    requires forall i :: 0 <= i < |slots| && slots[i].Started? ==> s.phases[i].Joined?
    ensures (forall r :: r in s.received ==> ReportsOf(slots, r) == [])
        <==> forall i :: 0 <= i < |slots| ==> EndedWell(slots[i], s.phases[i])
  {
    forall r | r in s.received
      ensures r.idx < |slots| && s.phases[r.idx] == Joined(r.err)
      ensures ReportsOf(slots, r) == [] <==> EndedWell(slots[r.idx], s.phases[r.idx])
    {
      NoReportOf(slots, r);
    }
    hide ReportsOf;
    if forall r :: r in s.received ==> ReportsOf(slots, r) == [] {
      forall i | 0 <= i < |slots|
        ensures EndedWell(slots[i], s.phases[i])
      {
        if slots[i].Started? {
          var k :| 0 <= k < |s.received| && s.received[k].idx == i;
          assert s.received[k] in s.received;
        }
      }
    }
  }

  // ---------- termination ----------

  function PhaseRank(p: Phase): nat {
    match p
    case Running => 2
    case Waited(_) => 1
    case _ => 0
  }

  function Ranks(s: State): seq<nat> {
    seq(|s.phases|, i requires 0 <= i < |s.phases| => PhaseRank(s.phases[i]))
  }

  lemma NextDecreasesRank(slots: seq<Slot>, s: State, e: Event)
    requires Enabled(s, e)
    ensures Sum(Ranks(Next(slots, s, e))) + 1 == Sum(Ranks(s))
  {
    var t := Next(slots, s, e);
    SumUpdate(Ranks(s), e.idx, PhaseRank(t.phases[e.idx]));
    assert Ranks(t) == Ranks(s)[e.idx := PhaseRank(t.phases[e.idx])];
  }

  lemma {:induction false} RunDecreasesRank(slots: seq<Slot>, s: State, es: seq<Event>, t: State)
    requires Run(slots, s, es, t)
    ensures Sum(Ranks(t)) + |es| == Sum(Ranks(s))
    decreases es
  {
    if es != [] {
      NextDecreasesRank(slots, s, es[0]);
      RunDecreasesRank(slots, Next(slots, s, es[0]), es[1..], t);
    }
  }

  // A run that has returned took exactly one wait and one receipt per started command, and
  // no run is longer.
  lemma {:induction false} TerminationBound(slots: seq<Slot>, es: seq<Event>, s: State)
    requires Run(slots, Init(slots), es, s)
    ensures |es| <= 2 * StartedCount(slots)
    ensures s.returned <==> |es| == 2 * StartedCount(slots)
  {
    hide Run;
    InitInv(slots);
    RunKeepsInv(slots, Init(slots), es, s);
    RunDecreasesRank(slots, Init(slots), es, s);
    SumOfScaled(StartedFlags(slots), Ranks(Init(slots)), 2);
    RankIsZeroIff(slots, s);
  }

  lemma RankIsZeroIff(slots: seq<Slot>, s: State)
    requires SlotsInv(slots, s)
    ensures s.returned <==> Sum(Ranks(s)) == 0
  {
    AllJoined(slots, s);
    hide Sum;
    if s.returned {
      SumOfEqual(Ranks(s), 0);
    } else {
      var i :| 0 <= i < |slots| && slots[i].Started? && !s.phases[i].Joined?;
      SumAtLeast(Ranks(s), i);
    }
  }

  // Until the loop returns it can receive, or some command is still running.
  lemma {:induction false} NeverStuck(slots: seq<Slot>, es: seq<Event>, s: State) returns (i: nat)
    requires Run(slots, Init(slots), es, s) && !s.returned
    ensures Enabled(s, Receive(i)) || (i < |s.phases| && s.phases[i].Running?)
  {
    InitInv(slots);
    RunKeepsInv(slots, Init(slots), es, s);
    AllJoined(slots, s);
    i :| 0 <= i < |slots| && slots[i].Started? && !s.phases[i].Joined?;
  }

  lemma {:induction false} RunSnoc(slots: seq<Slot>, s: State, es: seq<Event>, m: State, e: Event)
    requires Run(slots, s, es, m) && Enabled(m, e)
    ensures Run(slots, s, es + [e], Next(slots, m, e))
    decreases es
  {
    hide Next;
    hide Enabled;
    if es == [] {
      assert Run(slots, Next(slots, m, e), [e][1..], Next(slots, m, e));
    } else {
      RunSnoc(slots, Next(slots, s, es[0]), es[1..], m, e);
      assert (es + [e])[1..] == es[1..] + [e];
    }
  }

  // ---------- the loop itself ----------

  class Joiner {
    const commands: seq<Slot>
    var phases: seq<Phase>
    var startedCount: nat
    var finishedCount: nat
    var err: seq<Report>
    var onceFired: bool
    var cancels: nat
    var returned: bool
    ghost var received: seq<Receipt>

    ghost function Abs(): State
      reads this
    {
      State(phases, finishedCount, err, onceFired, cancels, returned, received)
    }

    // Start a waiting goroutine for every command that was started.
    constructor (commands: seq<Slot>)
      ensures this.commands == commands && Abs() == Init(commands)
      ensures startedCount == StartedCount(commands)
    {
      this.commands := commands;
      finishedCount, err, onceFired, cancels, received := 0, [], false, 0, [];
      var started: nat, waiting := 0, [];
      ghost var flags := StartedFlags(commands);
      for i := 0 to |commands|
        invariant started == Sum(flags[..i])
        invariant waiting == Init(commands).phases[..i]
      {
        SumOfAppend(flags[..i], flags[i]);
        assert flags[..i + 1] == flags[..i] + [flags[i]];
        if commands[i].Started? {
          started := started + 1;
          waiting := waiting + [Running];
        } else {
          waiting := waiting + [Skipped];
        }
      }
      assert flags[..|commands|] == flags;
      phases, startedCount, returned := waiting, started, started == 0;
    }

    predicate CanStep(e: Event)
      reads this
      ensures CanStep(e) == Enabled(Abs(), e)
    {
      && e.idx < |phases|
      && match e
         case Finish(i, _) => phases[i].Running?
         case Receive(i) => !returned && phases[i].Waited?
    }

    // cancelOnceFunc
    method CancelOnce()
      modifies this`onceFired, this`cancels
      ensures onceFired && cancels == old(cancels) + if old(onceFired) then 0 else 1
    {
      if !onceFired {
        onceFired := true;
        cancels := cancels + 1;
      }
    }

    // Closes the finished command's writers and collects the errors.
    method Conclude(idx: nat, finished: WaitError)
      requires idx < |commands| && commands[idx].Started?
      modifies this`err, this`onceFired, this`cancels
      ensures err == old(err) + ReportsOf(commands, Receipt(idx, finished))
      ensures onceFired == (old(onceFired) || EndsTheRest(Receipt(idx, finished)))
      ensures cancels == old(cancels) + if onceFired && !old(onceFired) then 1 else 0
    {
      var command := commands[idx];
      var errors := [];
      if command.stdout.FailsToClose? {
        errors := errors + [StdoutError(idx)];
      }
      if command.stderr.FailsToClose? {
        errors := errors + [StderrError(idx)];
      }
      if !DidExitGracefully(finished) {
        errors := errors + [CommandError(idx, finished)];
        CancelOnce();
      }
      if idx == 0 {
        CancelOnce();
      }
      err := err + errors;
    }

    // One turn of the loop: receive, conclude, count.
    method ReceiveOne(idx: nat)
      requires Enabled(Abs(), Receive(idx)) && |phases| == |commands|
      requires commands[idx].Started? && startedCount == StartedCount(commands)
      modifies this
      ensures Abs() == Next(commands, old(Abs()), Receive(idx)) && startedCount == old(startedCount)
    {
      hide ReportsOf;
      hide StartedCount;
      var finished := phases[idx].err;
      phases := phases[idx := Joined(finished)];
      received := received + [Receipt(idx, finished)];
      Conclude(idx, finished);
      finishedCount := finishedCount + 1;
      returned := finishedCount == startedCount;
    }

    // The loop and the waiting goroutines, for every order in which commands end.
    method Join(schedule: nat -> Event)
      requires Abs() == Init(commands) && startedCount == StartedCount(commands)
      modifies this
      ensures returned && |phases| == |commands|
      ensures forall i :: 0 <= i < |commands| && commands[i].Started? ==> phases[i].Joined?
      ensures err == AllReports(commands, received)
      ensures cancels == if SomeEndsTheRest(received) then 1 else 0
      ensures err == [] <==> forall i :: 0 <= i < |commands| ==> EndedWell(commands[i], phases[i])
      ensures forall i :: 0 <= i < |commands| && commands[i].Started? ==>
                && (StdoutError(i) in err <==> commands[i].stdout.FailsToClose?)
                && (StderrError(i) in err <==> commands[i].stderr.FailsToClose?)
                && (CommandError(i, phases[i].err) in err <==>
                      var e := phases[i].err;
                      e.OtherError? || (e.ExitError? && e.code != 143 && e.signal != 15))
      ensures forall rep :: rep in err ==>
                && rep.idx < |commands| && commands[rep.idx].Started?
                && (rep.CommandError? ==> rep.cause == phases[rep.idx].err)
      ensures cancels == if exists i :: 0 <= i < |commands| && commands[i].Started?
                              && (i == 0 || var e := phases[i].err;
                                            e.OtherError? || (e.ExitError? && e.code != 143 && e.signal != 15))
                         then 1 else 0
      ensures OncePerCommand(received) && |received| == StartedCount(commands)
    {
      ghost var es := [];
      var t := 0;
      InitInv(commands);
      hide Inv;
      hide Ranks;
      hide Enabled;
      hide Next;
      hide AllReports;
      while !returned
        invariant Run(commands, Init(commands), es, Abs()) && Inv(commands, Abs())
        invariant startedCount == StartedCount(commands)
        decreases Sum(Ranks(Abs()))
      {
        ghost var before := Abs();
        var e := schedule(t);
        if !CanStep(e) {
          e := AnyStep(es);
        }
        TakeStep(e);
        NextKeepsInv(commands, before, e);
        NextDecreasesRank(commands, before, e);
        RunSnoc(commands, Init(commands), es, before, e);
        es := es + [e];
        t := t + 1;
      }
      CancelsOnceReportsInOrder(commands, es, Abs());
      NoErrorIff(commands, es, Abs());
      ErrorNamesExactly(commands, es, Abs());
      OneReceiptPerCommand(commands, es, Abs());
      InvCounts(commands, Abs());
    }

    method TakeStep(e: Event)
      requires Enabled(Abs(), e) && Inv(commands, Abs())
      requires startedCount == StartedCount(commands)
      modifies this
      ensures Abs() == Next(commands, old(Abs()), e) && startedCount == old(startedCount)
    {
      match e {
        case Finish(i, err) => phases := phases[i := Waited(err)];
        case Receive(i) => ReceiveOne(i);
      }
    }

    // Some step that can be taken.
    method AnyStep(ghost es: seq<Event>) returns (e: Event)
      requires Run(commands, Init(commands), es, Abs()) && !returned
      ensures Enabled(Abs(), e)
    {
      ghost var d := NeverStuck(commands, es, Abs());
      var i := 0;
      while !CanStep(Receive(i)) && !CanStep(Finish(i, NoError))
        invariant i <= d
        decreases d - i
      {
        i := i + 1;
      }
      e := if CanStep(Receive(i)) then Receive(i) else Finish(i, NoError);
    }
  }

  lemma NextKeepsInv(slots: seq<Slot>, s: State, e: Event)
    requires Inv(slots, s) && Enabled(s, e)
    ensures Inv(slots, Next(slots, s, e))
  {
    NextKeepsSlots(slots, s, e);
    NextKeepsHistory(slots, s, e);
    NextKeepsReports(slots, s, e);
  }

  lemma InvCounts(slots: seq<Slot>, s: State)
    requires Inv(slots, s) && s.returned
    ensures |s.received| == StartedCount(slots)
  {}

  // ---------- starting ----------

  datatype Command = Command(starts: bool, stdout: Writer, stderr: Writer)

  predicate StartedUpTo(args: seq<Command>, slots: seq<Slot>, f: nat) {
    && f <= |args| == |slots|
    && (forall i :: 0 <= i < f ==> args[i].starts && slots[i] == Started(args[i].stdout, args[i].stderr))
    && (f < |args| ==> !args[f].starts && slots[f] == NotStarted)
    && (forall i :: f < i < |slots| ==> slots[i] == NotCreated)
  }

  // Commands start in order until one fails; the rest is never created.
  method StartCommands(args: seq<Command>) returns (slots: seq<Slot>, failed: Option<nat>)
    ensures StartedUpTo(args, slots, if failed.Some? then failed.value else |args|)
    ensures failed.Some? ==> failed.value < |args|
    ensures failed.None? <==> forall a :: a in args ==> a.starts
  {
    slots := seq(|args|, _ => NotCreated);
    for i := 0 to |args|
      invariant |slots| == |args|
      invariant forall j :: 0 <= j < i ==> args[j].starts && slots[j] == Started(args[j].stdout, args[j].stderr)
      invariant forall j :: i <= j < |slots| ==> slots[j] == NotCreated
    {
      slots := slots[i := NotStarted];
      if !args[i].starts {
        return slots, Some(i);
      }
      slots := slots[i := Started(args[i].stdout, args[i].stderr)];
    }
    failed := None;
  }

  lemma StartedWith(args: seq<Command>, slots: seq<Slot>, f: nat)
    requires StartedUpTo(args, slots, f)
    ensures |slots| == |args|
    ensures forall i :: 0 <= i < |args| && slots[i].Started? ==>
              slots[i].stdout == args[i].stdout && slots[i].stderr == args[i].stderr
  {
  }

  // The whole of RunCommands: there is no error if and only if every command started, ended
  // gracefully and closed its writers; a start failure cancels the commands once more.
  method RunCommands(args: seq<Command>, schedule: nat -> Event)
    returns (joiner: Joiner, failed: Option<nat>, cancels: nat)
    ensures fresh(joiner) && |joiner.phases| == |joiner.commands| == |args|
    ensures StartedUpTo(args, joiner.commands, if failed.Some? then failed.value else |args|)
    ensures forall i :: 0 <= i < |args| && joiner.commands[i].Started? ==> joiner.phases[i].Joined?
    ensures failed.None? && joiner.err == [] <==>
              && (forall a :: a in args ==> a.starts)
              && forall i :: 0 <= i < |args| ==> EndedWell(joiner.commands[i], joiner.phases[i])
    ensures forall i :: 0 <= i < |args| && joiner.commands[i].Started? ==>
              && (StdoutError(i) in joiner.err <==> args[i].stdout.FailsToClose?)
              && (StderrError(i) in joiner.err <==> args[i].stderr.FailsToClose?)
              && (CommandError(i, joiner.phases[i].err) in joiner.err <==>
                    var e := joiner.phases[i].err;
                    e.OtherError? || (e.ExitError? && e.code != 143 && e.signal != 15))
    ensures cancels == (if failed.Some? then 1 else 0)
                     + if exists i :: 0 <= i < |args| && joiner.commands[i].Started?
                            && (i == 0 || var e := joiner.phases[i].err;
                                          e.OtherError? || (e.ExitError? && e.code != 143 && e.signal != 15))
                       then 1 else 0
  {
    cancels := 0;
    var slots;
    slots, failed := StartCommands(args);
    if failed.Some? {
      cancels := 1;
    }
    StartedWith(args, slots, if failed.Some? then failed.value else |args|);
    hide StartedUpTo;
    joiner := new Joiner(slots);
    joiner.Join(schedule);
    cancels := cancels + joiner.cancels;
  }
}
