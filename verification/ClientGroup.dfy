/**
 RunClients: a group of clients that share a dial semaphore and a start barrier. Every client
 dials while it holds a permit, makes one round trip, waits at the barrier until all clients
 have done so or given up, and then runs on. An attempt that fails early may be retried.

 What the network does to each attempt is an arbitrary outcome.
 */
module ClientGroup {
  import opened Totals

  // ---------- errors ----------

  datatype Errno = ECONNRESET | EPIPE | OtherErrno

  // An error chain, as errors.As and errors.Is walk it.
  datatype Error =
    | Leaf
    | Sys(errno: Errno)
    | Wrap(cause: Error)
    | DialErr(cause: Error)
    | FirstIterationErr(cause: Error)

  predicate HasFirstIteration(e: Error) {
    match e
    case FirstIterationErr(_) => true
    case Wrap(c) => HasFirstIteration(c)
    case DialErr(c) => HasFirstIteration(c)
    case _ => false
  }

  predicate HasDial(e: Error) {
    match e
    case DialErr(_) => true
    case Wrap(c) => HasDial(c)
    case FirstIterationErr(c) => HasDial(c)
    case _ => false
  }

  predicate HasErrno(e: Error, n: Errno) {
    match e
    case Sys(m) => m == n
    case Wrap(c) => HasErrno(c, n)
    case DialErr(c) => HasErrno(c, n)
    case FirstIterationErr(c) => HasErrno(c, n)
    case Leaf => false
  }

  datatype Result = NoError | Failed(error: Error)

  predicate IsErrorRetriable(r: Result) {
    r.Failed?
    && ((HasErrno(r.error, ECONNRESET) && HasFirstIteration(r.error))
        || (HasErrno(r.error, EPIPE) && HasFirstIteration(r.error))
        || HasDial(r.error))
  }

  // An error that comes from outside: it carries none of the program's own wrappers.
  predicate External(e: Error) {
    match e
    case Wrap(c) => External(c)
    case DialErr(_) => false
    case FirstIterationErr(_) => false
    case _ => true
  }

  // ---------- the group ----------

  const MAX_RETRIES: nat := 3

  datatype Pc =
    | Start       // about to acquire the semaphore
    | Dialing     // holds a permit
    | FirstTrip   // in the first iteration, or stopped before it
    | AtBarrier   // has called Done and waits
    | Looping     // in the later iterations
    | Returned

  // reached is reachedBarrier; dones counts the calls of waitGroup.Done.
  datatype Client = Client(pc: Pc, attempt: nat, holds: bool, reached: bool, dones: nat, result: Result)

  datatype State = State(clients: seq<Client>, permits: int, waitGroup: int)

  // What happens in the next step of a client.
  datatype Outcome =
    | Good
    | Stopped            // a stop condition is met
    | Eof                // the peer has closed the connection with iterations left
    | Bad(error: Error)

  datatype Event = Event(c: nat, outcome: Outcome)

  function Init(n: nat, permits: nat): State {
    State(seq(n, _ => Client(Start, 0, false, false, 0, NoError)), permits, n)
  }

  predicate Enabled(s: State, e: Event) {
    && e.c < |s.clients|
    && (e.outcome.Bad? ==> External(e.outcome.error))
    && match s.clients[e.c].pc
       case Start => e.outcome.Bad? || s.permits > 0
       case AtBarrier => s.waitGroup == 0
       case Returned => false
       case _ => true
  }

  // The end of the goroutine: a client that never reached the barrier lets the others proceed.
  function Return(k: Client, r: Result): Client {
    k.(pc := Returned, result := r, dones := if k.reached then k.dones else k.dones + 1)
  }

  // The end of one attempt of runClientWithRetry.
  function EndAttempt(k: Client, r: Result): Client {
    if IsErrorRetriable(r) then
      if k.attempt + 1 < MAX_RETRIES then k.(pc := Start, attempt := k.attempt + 1)
      else Return(k, Failed(Wrap(if r.Failed? then r.error else Leaf)))
    else Return(k, r)
  }

  // connectBarrier, up to the wait.
  function ReachBarrier(k: Client): Client {
    k.(reached := true, dones := k.dones + 1, pc := AtBarrier)
  }

  function NextClient(k: Client, outcome: Outcome): Client
    requires !k.pc.Returned?
  {
    match k.pc
    case Start =>
      (match outcome
       case Bad(e) => EndAttempt(k, Failed(Wrap(Wrap(e))))
       case _ => k.(pc := Dialing, holds := true))
    case Dialing =>
      // dialAndTest releases its permit whatever the dial returned
      (match outcome
       case Bad(e) => EndAttempt(k.(holds := false), Failed(Wrap(DialErr(Wrap(e)))))
       case _ => k.(pc := FirstTrip, holds := false))
    case FirstTrip =>
      (match outcome
       case Good => ReachBarrier(k)
       case Stopped => EndAttempt(k, NoError)
       case Eof => EndAttempt(k, Failed(Leaf))
       case Bad(e) => EndAttempt(k, Failed(FirstIterationErr(Wrap(e)))))
    case AtBarrier => k.(pc := Looping)
    case Looping =>
      (match outcome
       case Bad(e) => EndAttempt(k, Failed(Wrap(e)))
       case Eof => EndAttempt(k, Failed(Leaf))
       case _ => EndAttempt(k, NoError))
  }

  function Held(k: Client): nat { if k.holds then 1 else 0 }

  // The semaphore and the wait group follow the clients' calls.
  function Next(s: State, e: Event): State
    requires Enabled(s, e)
  {
    var k := s.clients[e.c];
    var l := NextClient(k, e.outcome);
    State(s.clients[e.c := l], s.permits + Held(k) - Held(l), s.waitGroup + k.dones - l.dones)
  }

  ghost predicate Run(s: State, es: seq<Event>, t: State)
    decreases es
  {
    if es == [] then s == t else Enabled(s, es[0]) && Run(Next(s, es[0]), es[1..], t)
  }

  // ---------- which errors are retried ----------

  lemma ExternalHasNoWrapper(e: Error)
    requires External(e)
    ensures !HasFirstIteration(e) && !HasDial(e)
  {
  }

  // Exactly the failed dials, and the connections reset or broken in the first iteration, are
  // retried; an unexpected end of stream and whatever happens after the barrier are not.
  lemma RetriedExactly(e: Error)
    requires External(e)
    ensures IsErrorRetriable(Failed(Wrap(DialErr(Wrap(e)))))
    ensures IsErrorRetriable(Failed(FirstIterationErr(Wrap(e)))) <==> HasErrno(e, ECONNRESET) || HasErrno(e, EPIPE)
    ensures !IsErrorRetriable(Failed(Wrap(e))) && !IsErrorRetriable(Failed(Wrap(Wrap(e))))
    ensures !IsErrorRetriable(NoError) && !IsErrorRetriable(Failed(Leaf))
    ensures forall m :: IsErrorRetriable(Failed(FirstIterationErr(Wrap(Wrap(Sys(m)))))) <==> m == ECONNRESET || m == EPIPE
  {
    ExternalHasNoWrapper(e);
    assert !HasDial(Wrap(e)) && !HasFirstIteration(Wrap(e));
    assert HasErrno(FirstIterationErr(Wrap(e)), ECONNRESET) == HasErrno(e, ECONNRESET);
    assert HasErrno(FirstIterationErr(Wrap(e)), EPIPE) == HasErrno(e, EPIPE);
  }

  // ---------- the invariant ----------

  ghost predicate ClientInv(k: Client) {
    && k.attempt < MAX_RETRIES
    && k.holds == k.pc.Dialing?
    && (k.pc.Start? || k.pc.Dialing? || k.pc.FirstTrip? ==> !k.reached && k.dones == 0)
    && (k.pc.AtBarrier? || k.pc.Looping? ==> k.reached && k.dones == 1)
    && (k.pc.Returned? ==> k.dones == 1)
  }

  lemma NextKeepsClientInv(k: Client, outcome: Outcome)
    requires ClientInv(k) && !k.pc.Returned? && (outcome.Bad? ==> External(outcome.error))
    ensures ClientInv(NextClient(k, outcome))
  {
    if outcome.Bad? { RetriedExactly(outcome.error); }
  }

  function Holders(s: State): seq<nat> {
    seq(|s.clients|, c requires 0 <= c < |s.clients| => Held(s.clients[c]))
  }

  function Pending(s: State): seq<nat> {
    seq(|s.clients|, c requires 0 <= c < |s.clients| => if s.clients[c].dones == 0 then 1 else 0)
  }

  // Every permit is free or held; the wait group counts the clients that have not called Done.
  ghost predicate Inv(s: State, permits: nat) {
    && (forall c :: 0 <= c < |s.clients| ==> ClientInv(s.clients[c]))
    && s.permits >= 0 && s.permits + Sum(Holders(s)) == permits
    && s.waitGroup == Sum(Pending(s))
  }

  lemma InitInv(n: nat, permits: nat)
    ensures Inv(Init(n, permits), permits)
  {
    SumOfEqual(Holders(Init(n, permits)), 0);
    SumOfEqual(Pending(Init(n, permits)), 1);
  }

  lemma NextKeepsInv(s: State, e: Event, permits: nat)
    requires Inv(s, permits) && Enabled(s, e)
    ensures Inv(Next(s, e), permits) && |Next(s, e).clients| == |s.clients|
  {
    var t := Next(s, e);
    var k, l := s.clients[e.c], t.clients[e.c];
    NextKeepsClientInv(k, e.outcome);
    hide NextClient;
    assert Holders(t) == Holders(s)[e.c := Held(l)];
    assert Pending(t) == Pending(s)[e.c := if l.dones == 0 then 1 else 0];
    SumUpdate(Holders(s), e.c, Held(l));
    SumUpdate(Pending(s), e.c, if l.dones == 0 then 1 else 0);
    StepKeepsDones(k, e.outcome);
    OnlyDialersTake(s, e);
  }

  // A client that has called Done does not take it back, and does not call it again.
  lemma StepKeepsDones(k: Client, outcome: Outcome)
    requires ClientInv(k) && !k.pc.Returned? && (outcome.Bad? ==> External(outcome.error))
    ensures k.dones <= NextClient(k, outcome).dones <= 1
  {
    NextKeepsClientInv(k, outcome);
  }

  lemma OnlyDialersTake(s: State, e: Event)
    requires Enabled(s, e) && s.permits >= 0
    ensures Next(s, e).permits >= 0
  {
  }

  lemma {:induction false} RunKeepsInv(s: State, es: seq<Event>, t: State, permits: nat)
    requires Inv(s, permits) && Run(s, es, t)
    ensures Inv(t, permits) && |t.clients| == |s.clients|
    decreases es
  {
    hide Next;
    hide Inv;
    hide Enabled;
    if es != [] {
      NextKeepsInv(s, es[0], permits);
      RunKeepsInv(Next(s, es[0]), es[1..], t, permits);
    }
  }

  // ---------- safety ----------

  // Whatever the outcomes and the schedule: no client calls Done twice, each has called it
  // exactly once when it returns, the wait group never goes negative, the permits are never
  // overdrawn, and no client at the barrier or beyond holds one.
  lemma {:induction false} DoneExactlyOnce(n: nat, permits: nat, es: seq<Event>, s: State)
    requires Run(Init(n, permits), es, s)
    ensures |s.clients| == n && s.waitGroup >= 0 && 0 <= s.permits <= permits
    ensures forall c :: 0 <= c < n ==>
              && s.clients[c].dones <= 1
              && (s.clients[c].pc.Returned? ==> s.clients[c].dones == 1)
              && (s.clients[c].holds ==> s.clients[c].pc.Dialing?)
  {
    InitInv(n, permits);
    RunKeepsInv(Init(n, permits), es, s, permits);
  }

  // The barrier opens only when every client has used its connection once or given up.
  lemma {:induction false} BarrierIsTight(n: nat, permits: nat, es: seq<Event>, s: State)
    requires Run(Init(n, permits), es, s)
    ensures |s.clients| == n
    ensures s.waitGroup == 0 <==>
              forall c :: 0 <= c < n ==> s.clients[c].reached || s.clients[c].pc.Returned?
  {
    InitInv(n, permits);
    RunKeepsInv(Init(n, permits), es, s, permits);
    var pending := Pending(s);
    if forall c :: 0 <= c < n ==> s.clients[c].reached || s.clients[c].pc.Returned? {
      ReachedMeansDone(n, permits, es, s);
      SumOfEqual(pending, 0);
    } else {
      var c :| 0 <= c < n && !s.clients[c].reached && !s.clients[c].pc.Returned?;
      assert pending[c] == 1;
      SumAtLeast(pending, c);
    }
  }

  lemma {:induction false} ReachedMeansDone(n: nat, permits: nat, es: seq<Event>, s: State)
    requires Run(Init(n, permits), es, s)
    ensures |s.clients| == n
    ensures forall c :: 0 <= c < n && (s.clients[c].reached || s.clients[c].pc.Returned?) ==> Pending(s)[c] == 0
  {
    InitInv(n, permits);
    RunKeepsInv(Init(n, permits), es, s, permits);
  }

  // Nobody runs on before the barrier is open: a client past it has found every client
  // connected or gone.
  lemma {:induction false} BarrierHolds(n: nat, permits: nat, es: seq<Event>, s: State, c: nat)
    requires Run(Init(n, permits), es, s) && c < n
    ensures |s.clients| == n
    ensures s.clients[c].pc.Looping? || (s.clients[c].pc.Returned? && s.clients[c].reached) ==>
              forall d :: 0 <= d < n ==> s.clients[d].reached || s.clients[d].pc.Returned?
  {
    BarrierIsTight(n, permits, es, s);
    InitInv(n, permits);
    RunKeepsBarrier(Init(n, permits), es, s, permits);
  }

  predicate PastBarrier(k: Client) {
    k.pc.Looping? || (k.pc.Returned? && k.reached)
  }

  ghost predicate BarrierInv(s: State) {
    (exists c :: 0 <= c < |s.clients| && PastBarrier(s.clients[c])) ==> s.waitGroup == 0
  }

  lemma NextKeepsBarrier(s: State, e: Event, permits: nat)
    requires Inv(s, permits) && BarrierInv(s) && Enabled(s, e)
    ensures BarrierInv(Next(s, e))
  {
    NextKeepsInv(s, e, permits);
    var k, t := s.clients[e.c], Next(s, e);
    StepKeepsDones(k, e.outcome);
    PassesWhenOpen(s, e);
    hide NextClient;
    if c :| 0 <= c < |t.clients| && PastBarrier(t.clients[c]) && c != e.c {
      assert PastBarrier(s.clients[c]);
    }
  }

  lemma PassesWhenOpen(s: State, e: Event)
    requires Enabled(s, e) && ClientInv(s.clients[e.c])
    ensures PastBarrier(NextClient(s.clients[e.c], e.outcome)) ==> PastBarrier(s.clients[e.c]) || s.waitGroup == 0
  {
  }

  lemma {:induction false} RunKeepsBarrier(s: State, es: seq<Event>, t: State, permits: nat)
    requires Inv(s, permits) && BarrierInv(s) && Run(s, es, t)
    ensures BarrierInv(t)
    decreases es
  {
    hide Next;
    hide Inv;
    hide Enabled;
    hide BarrierInv;
    if es != [] {
      NextKeepsInv(s, es[0], permits);
      NextKeepsBarrier(s, es[0], permits);
      RunKeepsBarrier(Next(s, es[0]), es[1..], t, permits);
    }
  }

  // ---------- retries, counted over runs ----------

  // A failed dial, or a connection reset or broken in the first iteration.
  predicate IsRetriableFailure(k: Client, outcome: Outcome) {
    && outcome.Bad?
    && (k.pc.Dialing?
        || (k.pc.FirstTrip? && (HasErrno(outcome.error, ECONNRESET) || HasErrno(outcome.error, EPIPE))))
  }

  // How many of those client c has had.
  function Failures(s: State, es: seq<Event>, c: nat): nat
    requires c < |s.clients|
    decreases es
  {
    if es == [] || !Enabled(s, es[0]) || |Next(s, es[0]).clients| != |s.clients| then 0
    else (if es[0].c == c && IsRetriableFailure(s.clients[c], es[0].outcome) then 1 else 0)
         + Failures(Next(s, es[0]), es[1..], c)
  }

  // Another error, or an end that is not one.
  predicate IsLastStep(k: Client, outcome: Outcome) {
    || (outcome.Bad? && !k.pc.AtBarrier? && !IsRetriableFailure(k, outcome))
    || (k.pc.FirstTrip? && (outcome.Stopped? || outcome.Eof?))
    || k.pc.Looping?
  }

  // What one step of a client makes of its attempts.
  lemma StepOfClient(k: Client, outcome: Outcome)
    requires ClientInv(k) && !k.pc.Returned? && (outcome.Bad? ==> External(outcome.error))
    ensures var l := NextClient(k, outcome);
            && (l.pc.Returned? <==> (IsRetriableFailure(k, outcome) && k.attempt == 2) || IsLastStep(k, outcome))
            && (IsRetriableFailure(k, outcome) && k.attempt < 2 ==> l.pc.Start? && l.attempt == k.attempt + 1)
            && (!IsRetriableFailure(k, outcome) ==> l.attempt == k.attempt)
            && (l.pc.Returned? ==> (l.result.NoError? <==> !outcome.Bad? && !outcome.Eof?))
  {
    if outcome.Bad? { RetriedExactly(outcome.error); }
    hide External;
    hide HasErrno;
    hide IsErrorRetriable;
  }

  lemma {:induction false} AttemptsAreFailures(s: State, es: seq<Event>, t: State, permits: nat, c: nat)
    requires Inv(s, permits) && Run(s, es, t) && c < |s.clients|
    ensures |t.clients| == |s.clients|
    ensures !t.clients[c].pc.Returned? ==> t.clients[c].attempt == s.clients[c].attempt + Failures(s, es, c)
    decreases es
  {
    if es != [] {
      var m := Next(s, es[0]);
      NextKeepsInv(s, es[0], permits);
      StepOfClient(s.clients[es[0].c], es[0].outcome);
      hide NextClient;
      hide IsRetriableFailure;
      hide IsLastStep;
      AttemptsAreFailures(m, es[1..], t, permits, c);
      if m.clients[c].pc.Returned? { ReturnedStays(m, es[1..], t, c); }
    }
  }

  lemma {:induction false} ReturnedStays(s: State, es: seq<Event>, t: State, c: nat)
    requires Run(s, es, t) && c < |s.clients| && s.clients[c].pc.Returned?
    ensures c < |t.clients| && t.clients[c] == s.clients[c]
    decreases es
  {
    if es != [] { ReturnedStays(Next(s, es[0]), es[1..], t, c); }
  }

  // In every run: after a failed dial, or a reset or broken pipe in the first iteration, a
  // client returns if and only if that was its third such failure, and else starts over; any
  // other error makes it return at once. It returns without error exactly when its last step
  // was neither an error nor an unexpected end of stream.
  lemma {:induction false} RetriesThreeTimes(n: nat, permits: nat, es: seq<Event>, s: State, e: Event)
    requires Run(Init(n, permits), es, s) && Enabled(s, e)
    ensures e.c < n == |s.clients| == |Next(s, e).clients|
    ensures var k, l, failures := s.clients[e.c], Next(s, e).clients[e.c], Failures(Init(n, permits), es, e.c);
            && failures <= 2
            && (IsRetriableFailure(k, e.outcome) ==>
                  if failures == 2 then l.pc.Returned? && l.result.Failed? else l.pc.Start?)
            && (!IsRetriableFailure(k, e.outcome) ==> (l.pc.Returned? <==> IsLastStep(k, e.outcome)))
            && (l.pc.Returned? ==> (l.result.NoError? <==> !e.outcome.Bad? && !e.outcome.Eof?))
  {
    InitInv(n, permits);
    RunKeepsInv(Init(n, permits), es, s, permits);
    NextKeepsInv(s, e, permits);
    AttemptsAreFailures(Init(n, permits), es, s, permits, e.c);
    StepOfClient(s.clients[e.c], e.outcome);
    hide NextClient;
    hide IsRetriableFailure;
    hide IsLastStep;
  }

  // A client about to dial needs three good steps to reach the barrier, and once that is open
  // two more to return without error.
  lemma {:induction false} GoodStepsSucceed(n: nat, permits: nat, es: seq<Event>, s: State, c: nat)
    requires Run(Init(n, permits), es, s) && c < n
    ensures |s.clients| == n
    ensures var g := Event(c, Good);
            && (s.clients[c].pc.Start? && s.permits > 0 ==>
                  exists t :: Run(s, [g, g, g], t) && |t.clients| == n && t.clients == s.clients[c := t.clients[c]]
                              && t.clients[c].pc.AtBarrier? && t.clients[c].reached && t.permits == s.permits)
            && (s.clients[c].pc.AtBarrier? && s.waitGroup == 0 ==>
                  exists t :: Run(s, [g, g], t) && |t.clients| == n
                              && t.clients[c].pc.Returned? && t.clients[c].result.NoError?)
  {
    InitInv(n, permits);
    RunKeepsInv(Init(n, permits), es, s, permits);
    var g, k := Event(c, Good), s.clients[c];
    if k.pc.Start? && s.permits > 0 { ThreeGoodSteps(s, c); }
    if k.pc.AtBarrier? && s.waitGroup == 0 { TwoGoodSteps(s, c); }
  }

  lemma ThreeGoodSteps(s: State, c: nat)
    requires c < |s.clients| && ClientInv(s.clients[c]) && s.clients[c].pc.Start? && s.permits > 0
    ensures var g := Event(c, Good);
            exists t :: Run(s, [g, g, g], t) && |t.clients| == |s.clients| && t.clients == s.clients[c := t.clients[c]]
                        && t.clients[c].pc.AtBarrier? && t.clients[c].reached && t.permits == s.permits
  {
    var g := Event(c, Good);
    var s1 := Next(s, g);
    var s2 := Next(s1, g);
    var s3 := Next(s2, g);
    assert [g, g, g][1..] == [g, g] && [g, g][1..] == [g] && [g][1..] == [];
    assert Run(s3, [], s3) && Run(s2, [g], s3) && Run(s1, [g, g], s3);
    assert Run(s, [g, g, g], s3);
  }

  lemma TwoGoodSteps(s: State, c: nat)
    requires c < |s.clients| && ClientInv(s.clients[c]) && s.clients[c].pc.AtBarrier? && s.waitGroup == 0
    ensures var g := Event(c, Good);
            exists t :: Run(s, [g, g], t) && |t.clients| == |s.clients|
                        && t.clients[c].pc.Returned? && t.clients[c].result.NoError?
  {
    var g := Event(c, Good);
    var s1 := Next(s, g);
    var s2 := Next(s1, g);
    assert [g, g][1..] == [g] && [g][1..] == [];
    assert Run(s2, [], s2) && Run(s1, [g], s2) && Run(s, [g, g], s2);
  }

  lemma {:induction false} FailuresSnoc(s: State, es: seq<Event>, m: State, e: Event, c: nat)
    requires c < |s.clients| == |m.clients| && Run(s, es, m) && Enabled(m, e)
    requires forall k :: k in es ==> k.c < |s.clients|
    ensures Failures(s, es + [e], c)
         == Failures(s, es, c) + if e.c == c && IsRetriableFailure(m.clients[c], e.outcome) then 1 else 0
    decreases es
  {
    hide NextClient;
    hide IsRetriableFailure;
    if es == [] {
      assert [e][1..] == [];
      assert Failures(Next(s, e), [], c) == 0;
    } else {
      assert (es + [e])[0] == es[0] && (es + [e])[1..] == es[1..] + [e];
      forall k | k in es[1..]
        ensures k.c < |s.clients|
      {
        assert k in es;
      }
      FailuresSnoc(Next(s, es[0]), es[1..], m, e, c);
    }
  }

  // A single client that has had j failures and starts over.
  function Retrying(j: nat, permits: nat): State {
    State([Client(Start, j, false, false, 0, NoError)], permits, 1)
  }

  lemma OneMoreStep(es: seq<Event>, m: State, e: Event, permits: nat) returns (fs: seq<Event>, t: State)
    requires Run(Init(1, permits), es, m) && |m.clients| == 1 && Enabled(m, e) && forall k :: k in es ==> k.c == 0
    ensures t == Next(m, e) && Run(Init(1, permits), fs, t) && |t.clients| == 1 && forall k :: k in fs ==> k.c == 0
    ensures Failures(Init(1, permits), fs, 0)
         == Failures(Init(1, permits), es, 0) + if IsRetriableFailure(m.clients[0], e.outcome) then 1 else 0
  {
    RunSnoc(Init(1, permits), es, m, e);
    FailuresSnoc(Init(1, permits), es, m, e, 0);
    fs, t := es + [e], Next(m, e);
  }

  lemma {:induction false} FailedBefore(j: nat, permits: nat, e: Error) returns (es: seq<Event>)
    requires j < 3 && permits > 0 && External(e)
    ensures Run(Init(1, permits), es, Retrying(j, permits)) && Failures(Init(1, permits), es, 0) == j
    ensures forall k :: k in es ==> k.c == 0
  {
    if j == 0 {
      es := [];
      assert Init(1, permits) == Retrying(0, permits);
    } else {
      es := FailedBefore(j - 1, permits, e);
      var s := Retrying(j - 1, permits);
      FailedDial(j - 1, permits, e);
      hide *;
      es, s := OneMoreStep(es, s, Event(0, Good), permits);
      es, s := OneMoreStep(es, s, Event(0, Bad(e)), permits);
    }
  }

  lemma FailedDial(j: nat, permits: nat, e: Error)
    requires j < 2 && permits > 0 && External(e)
    ensures var s, g, b := Retrying(j, permits), Event(0, Good), Event(0, Bad(e));
            && |s.clients| == 1 && Enabled(s, g) && !IsRetriableFailure(s.clients[0], Good)
            && |Next(s, g).clients| == 1 && Enabled(Next(s, g), b) && IsRetriableFailure(Next(s, g).clients[0], Bad(e))
            && Next(Next(s, g), b) == Retrying(j + 1, permits)
  {
    RetriedExactly(e);
    var s1 := Next(Retrying(j, permits), Event(0, Good));
    assert s1 == State([Client(Dialing, j, true, false, 0, NoError)], permits - 1, 1);
    hide IsErrorRetriable;
  }

  // After any number of failed dials below three a client can still connect, pass the barrier
  // and return without error.
  lemma {:induction false} SucceedsAfterFailures(j: nat, permits: nat, e: Error) returns (es: seq<Event>, s: State)
    requires j < 3 && permits > 0 && External(e)
    ensures Run(Init(1, permits), es, s) && |s.clients| == 1 && Failures(Init(1, permits), es, 0) == j
    ensures s.clients[0].pc.Returned? && s.clients[0].result.NoError? && s.clients[0].reached
  {
    var g := Event(0, Good);
    es := FailedBefore(j, permits, e);
    s := Retrying(j, permits);
    AllGoodSteps(j, permits);
    hide *;
    es, s := OneMoreStep(es, s, g, permits);
    es, s := OneMoreStep(es, s, g, permits);
    es, s := OneMoreStep(es, s, g, permits);
    es, s := OneMoreStep(es, s, g, permits);
    es, s := OneMoreStep(es, s, g, permits);
  }

  // The state of a single client with j failures behind it.
  function Alone(pc: Pc, j: nat, permits: nat, reached: bool): State {
    var done := if reached || pc.Returned? then 1 else 0;
    State([Client(pc, j, pc.Dialing?, reached, done, NoError)],
          permits - if pc.Dialing? then 1 else 0, 1 - done)
  }

  lemma AllGoodSteps(j: nat, permits: nat)
    requires permits > 0
    ensures Retrying(j, permits) == Alone(Start, j, permits, false)
    ensures GoodStep(Retrying(j, permits), Alone(Dialing, j, permits, false))
    ensures GoodStep(Alone(Dialing, j, permits, false), Alone(FirstTrip, j, permits, false))
    ensures GoodStep(Alone(FirstTrip, j, permits, false), Alone(AtBarrier, j, permits, true))
    ensures GoodStep(Alone(AtBarrier, j, permits, true), Alone(Looping, j, permits, true))
    ensures GoodStep(Alone(Looping, j, permits, true), Alone(Returned, j, permits, true))
    ensures var k := Alone(Returned, j, permits, true).clients[0]; k.pc.Returned? && k.result.NoError? && k.reached
  {
  }

  predicate GoodStep(s: State, t: State) {
    var g := Event(0, Good);
    && |s.clients| == |t.clients| == 1 && Enabled(s, g) && Next(s, g) == t
    && !IsRetriableFailure(s.clients[0], Good)
  }

  predicate AllReturned(s: State) {
    forall c :: 0 <= c < |s.clients| ==> s.clients[c].pc.Returned?
  }

  // Every dial returns and every trip ends, so with at least one permit the group cannot
  // deadlock: until all clients have returned, one of them can go on without any failure.
  lemma {:induction false} NeverStuck(n: nat, permits: nat, es: seq<Event>, s: State) returns (c: nat)
    requires permits >= 1 && Run(Init(n, permits), es, s) && !AllReturned(s)
    ensures Enabled(s, Event(c, Good))
  {
    InitInv(n, permits);
    RunKeepsInv(Init(n, permits), es, s, permits);
    if d :| 0 <= d < n && !s.clients[d].pc.Start? && !s.clients[d].pc.AtBarrier? && !s.clients[d].pc.Returned? {
      c := d;
    } else if d :| 0 <= d < n && s.clients[d].pc.Start? {
      SumOfEqual(Holders(s), 0);
      c := d;
    } else {
      c :| 0 <= c < n && !s.clients[c].pc.Returned?;
      BarrierIsTight(n, permits, es, s);
    }
  }

  // ---------- termination ----------

  function Remaining(k: Client): nat {
    match k.pc
    case Start => 3 * (MAX_RETRIES - 1 - (if k.attempt < MAX_RETRIES then k.attempt else MAX_RETRIES - 1)) + 5
    case Dialing => 3 * (MAX_RETRIES - 1 - (if k.attempt < MAX_RETRIES then k.attempt else MAX_RETRIES - 1)) + 4
    case FirstTrip => 3 * (MAX_RETRIES - 1 - (if k.attempt < MAX_RETRIES then k.attempt else MAX_RETRIES - 1)) + 3
    case AtBarrier => 2
    case Looping => 1
    case Returned => 0
  }

  function Ranks(s: State): seq<nat> {
    seq(|s.clients|, c requires 0 <= c < |s.clients| => Remaining(s.clients[c]))
  }

  lemma ClientMakesProgress(k: Client, outcome: Outcome)
    requires ClientInv(k) && !k.pc.Returned? && (outcome.Bad? ==> External(outcome.error))
    ensures Remaining(NextClient(k, outcome)) < Remaining(k)
  {
    if outcome.Bad? { RetriedExactly(outcome.error); }
  }

  lemma NextDecreasesRank(s: State, e: Event, permits: nat)
    requires Inv(s, permits) && Enabled(s, e)
    ensures Sum(Ranks(Next(s, e))) < Sum(Ranks(s))
  {
    var k := s.clients[e.c];
    var l := NextClient(k, e.outcome);
    ClientMakesProgress(k, e.outcome);
    hide NextClient;
    hide Remaining;
    assert Ranks(Next(s, e)) == Ranks(s)[e.c := Remaining(l)];
    SumUpdate(Ranks(s), e.c, Remaining(l));
  }

  lemma {:induction false} RankBoundsRun(s: State, es: seq<Event>, t: State, permits: nat)
    requires Inv(s, permits) && Run(s, es, t)
    ensures |es| + Sum(Ranks(t)) <= Sum(Ranks(s))
    decreases es
  {
    hide Next;
    hide Inv;
    hide Enabled;
    if es != [] {
      NextKeepsInv(s, es[0], permits);
      NextDecreasesRank(s, es[0], permits);
      RankBoundsRun(Next(s, es[0]), es[1..], t, permits);
    }
  }

  // Eleven steps per client bound every run, counting its later iterations as one.
  lemma {:induction false} TerminationBound(n: nat, permits: nat, es: seq<Event>, s: State)
    requires Run(Init(n, permits), es, s)
    ensures |es| <= 11 * n
  {
    InitInv(n, permits);
    RankBoundsRun(Init(n, permits), es, s, permits);
    SumOfEqual(Ranks(Init(n, permits)), 11);
  }

  lemma {:induction false} RunSnoc(s: State, es: seq<Event>, m: State, e: Event)
    requires Run(s, es, m) && Enabled(m, e)
    ensures Run(s, es + [e], Next(m, e))
    decreases es
  {
    hide Next;
    hide Enabled;
    if es == [] {
      assert Run(Next(m, e), [e][1..], Next(m, e));
    } else {
      RunSnoc(Next(s, es[0]), es[1..], m, e);
      assert (es + [e])[1..] == es[1..] + [e];
    }
  }

  // ---------- the group itself ----------

  class Group {
    const size: nat
    const dialLimit: nat
    var clients: seq<Client>
    var permits: int
    var waitGroup: int

    ghost function Abs(): State
      reads this
    {
      State(clients, permits, waitGroup)
    }

    constructor (n: nat, dialLimit: nat)
      ensures size == n && this.dialLimit == dialLimit && Abs() == Init(n, dialLimit)
    {
      size, this.dialLimit := n, dialLimit;
      clients := seq(n, _ => Client(Start, 0, false, false, 0, NoError));
      permits, waitGroup := dialLimit, n;
    }

    method TakeStep(e: Event)
      requires Enabled(Abs(), e)
      modifies this
      ensures Abs() == Next(old(Abs()), e)
    {
      var k := clients[e.c];
      var l := NextClient(k, e.outcome);
      if l.holds && !k.holds { permits := permits - 1; }
      if k.holds && !l.holds { permits := permits + 1; }
      waitGroup := waitGroup - (l.dones - k.dones);
      clients := clients[e.c := l];
    }

    // RunClients for every schedule and every outcome: all clients return.
    method RunAll(schedule: nat -> Event) returns (ghost es: seq<Event>)
      requires dialLimit >= 1 && Abs() == Init(size, dialLimit)
      modifies this
      ensures Run(Init(size, dialLimit), es, Abs())
      ensures |clients| == size && AllReturned(Abs()) && waitGroup == 0 && permits == dialLimit
      ensures forall c :: 0 <= c < size ==> clients[c].dones == 1
    {
      es := [];
      var t := 0;
      InitInv(size, dialLimit);
      hide Inv;
      hide Ranks;
      hide Enabled;
      hide Next;
      while exists c :: 0 <= c < |clients| && !clients[c].pc.Returned?
        invariant Run(Init(size, dialLimit), es, Abs()) && Inv(Abs(), dialLimit)
        decreases Sum(Ranks(Abs()))
      {
        ghost var before := Abs();
        var e := schedule(t);
        if !CanStep(e) {
          e := AnyStep(es);
        }
        TakeStep(e);
        NextKeepsInv(before, e, dialLimit);
        NextDecreasesRank(before, e, dialLimit);
        RunSnoc(Init(size, dialLimit), es, before, e);
        es := es + [e];
        t := t + 1;
      }
      GroupIsDone(es);
    }

    predicate CanStep(e: Event)
      reads this
      ensures CanStep(e) == Enabled(Abs(), e)
    {
      Enabled(State(clients, permits, waitGroup), e)
    }

    // Some client that can go on.
    method AnyStep(ghost es: seq<Event>) returns (e: Event)
      requires dialLimit >= 1 && Run(Init(size, dialLimit), es, Abs()) && !AllReturned(Abs())
      ensures Enabled(Abs(), e)
    {
      ghost var d := NeverStuck(size, dialLimit, es, Abs());
      var c := 0;
      while !CanStep(Event(c, Good))
        invariant c <= d
        decreases d - c
      {
        c := c + 1;
      }
      e := Event(c, Good);
    }

    lemma GroupIsDone(es: seq<Event>)
      requires Run(Init(size, dialLimit), es, Abs()) && AllReturned(Abs())
      ensures |clients| == size && waitGroup == 0 && permits == dialLimit
      ensures forall c :: 0 <= c < size ==> clients[c].dones == 1
    {
      InitInv(size, dialLimit);
      RunKeepsInv(Init(size, dialLimit), es, Abs(), dialLimit);
      SumOfEqual(Holders(Abs()), 0);
      SumOfEqual(Pending(Abs()), 0);
    }
  }
}
