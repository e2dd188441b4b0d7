/**
 One echo connection of the Go program: a client that sends a line and waits for it to come
 back, and a server that reads a first line with a buffered reader of its own, throws that
 reader away, and then echoes every line it reads through another one.

 The network may deliver what was written in fragments of any size, and either side may run
 at any time. The client stops after a given number of iterations and closes the connection;
 the server runs until it sees the end of the stream.
 */
module EchoConnection {
  import opened Bytes
  import opened Totals

  datatype Side = Client | Server

  // One step of a side; a read takes at most n bytes, and at least one.
  datatype Event = Event(side: Side, n: nat)

  datatype ClientPc = Top | Reading | Finished | Failed
  datatype ServerPc = FirstRead | LoopTop | LoopReading | Returned | Broken

  // toServer and toClient are the bytes in the network. throwaway is the buffer of the reader
  // used by handleConnection, loopBuf the one made by runRoundTripLoop, clientBuf the client's.
  datatype State = State(
    message: seq<byte>, rounds: nat,
    client: ClientPc, server: ServerPc,
    i: nat, done: bool,
    clientBytes: seq<byte>, serverBytes: seq<byte>,
    clientBuf: seq<byte>, throwaway: seq<byte>, loopBuf: seq<byte>,
    toServer: seq<byte>, toClient: seq<byte>,
    clientCount: nat, serverCount: nat)

  function Init(message: seq<byte>, rounds: nat): State {
    State(message, rounds, Top, FirstRead, 0, false, message, [], [], [], [], [], [], 0, 0)
  }

  predicate HasLine(buf: seq<byte>) { FirstIndex(buf, LF) < |buf| }

  function Line(buf: seq<byte>): seq<byte>
    requires HasLine(buf)
  {
    buf[..FirstIndex(buf, LF) + 1]
  }

  function AfterLine(buf: seq<byte>): seq<byte>
    requires HasLine(buf)
  {
    buf[FirstIndex(buf, LF) + 1..]
  }

  // The size of the next fragment.
  function Fragment(n: nat, available: seq<byte>): (k: nat)
    requires available != []
    ensures 1 <= k <= |available|
  {
    if n == 0 then 1 else if n <= |available| then n else |available|
  }

  predicate Enabled(s: State, e: Event) {
    match e.side
    case Client =>
      (match s.client
       case Top => true
       case Reading => HasLine(s.clientBuf) || s.toClient != [] || s.server.Returned? || s.server.Broken?
       case _ => false)
    case Server =>
      (match s.server
       case FirstRead => HasLine(s.throwaway) || s.toServer != [] || s.client.Finished? || s.client.Failed?
       case LoopTop => true
       case LoopReading => HasLine(s.loopBuf) || s.toServer != [] || s.client.Finished? || s.client.Failed?
       case _ => false)
  }

  // runRoundTripLoop with a number of iterations. An end of stream is an error there.
  function NextClient(s: State, n: nat): State
    requires Enabled(s, Event(Client, n))
  {
    match s.client
    case Top =>
      if s.i >= s.rounds then s.(client := Finished)
      else s.(toServer := s.toServer + s.clientBytes, client := Reading)
    case Reading =>
      if HasLine(s.clientBuf) then
        s.(clientBytes := Line(s.clientBuf), clientBuf := AfterLine(s.clientBuf),
           clientCount := s.clientCount + 1, i := s.i + 1, client := Top)
      else if s.toClient != [] then
        var k := Fragment(n, s.toClient);
        s.(clientBuf := s.clientBuf + s.toClient[..k], toClient := s.toClient[k..])
      else s.(client := Failed)
  }

  // handleConnection, and runRoundTripLoop without a number of iterations: there an end of
  // stream between two lines counts as one more iteration and ends the loop.
  function NextServer(s: State, n: nat): State
    requires Enabled(s, Event(Server, n))
  {
    match s.server
    case FirstRead =>
      if HasLine(s.throwaway) then
        s.(serverBytes := Line(s.throwaway), throwaway := AfterLine(s.throwaway), server := LoopTop)
      else if s.toServer != [] then
        var k := Fragment(n, s.toServer);
        s.(throwaway := s.throwaway + s.toServer[..k], toServer := s.toServer[k..])
      else s.(server := Broken)
    case LoopTop =>
      if s.done then s.(server := Returned)
      else s.(toClient := s.toClient + s.serverBytes, server := LoopReading)
    case LoopReading =>
      if HasLine(s.loopBuf) then
        s.(serverBytes := Line(s.loopBuf), loopBuf := AfterLine(s.loopBuf),
           serverCount := s.serverCount + 1, server := LoopTop)
      else if s.toServer != [] then
        var k := Fragment(n, s.toServer);
        s.(loopBuf := s.loopBuf + s.toServer[..k], toServer := s.toServer[k..])
      else if s.loopBuf == [] then
        s.(done := true, serverCount := s.serverCount + 1, server := LoopTop)
      else s.(server := Broken)
  }

  function Next(s: State, e: Event): State
    requires Enabled(s, e)
  {
    if e.side.Client? then NextClient(s, e.n) else NextServer(s, e.n)
  }

  ghost predicate Run(s: State, es: seq<Event>, t: State)
    decreases es
  {
    if es == [] then s == t else Enabled(s, es[0]) && Run(Next(s, es[0]), es[1..], t)
  }

  // ---------- messages ----------

  // One line: its only line feed is the last byte.
  predicate IsLine(m: seq<byte>) { m != [] && FirstIndex(m, LF) == |m| - 1 }

  function Digits(n: nat): seq<byte> {
    (if n < 10 then [] else Digits(n / 10)) + [(48 + n % 10) as byte]
  }

  // The message of client number n: "client", the number in decimal, a line feed.
  function ClientMessage(n: nat): seq<byte> {
    [99, 108, 105, 101, 110, 116] + Digits(n) + [LF]
  }

  lemma {:induction false} DigitsHaveNoLF(n: nat)
    ensures LF !in Digits(n)
  {
    if n >= 10 { DigitsHaveNoLF(n / 10); }
  }

  lemma ClientMessageIsLine(n: nat)
    ensures IsLine(ClientMessage(n))
  {
    DigitsHaveNoLF(n);
    var m := ClientMessage(n);
    assert m[..|m| - 1] == [99, 108, 105, 101, 110, 116] + Digits(n);
    FirstIndexIs(m, LF, |m| - 1);
  }

  // ---------- the invariant ----------

  // The message is in one place: with the client, on its way to the server, with the server,
  // or on its way back.
  ghost predicate AtClient(s: State) {
    s.client.Top? && s.toServer == [] && s.toClient == [] && s.clientBuf == []
    && (if s.i == 0 then s.server.FirstRead? && s.serverCount == 0
        else s.server.LoopReading? && s.serverCount == s.i - 1)
  }

  ghost predicate ToServer(s: State) {
    s.client.Reading? && s.toClient == [] && s.clientBuf == [] && s.i < s.rounds
    && (if s.i == 0 then s.server.FirstRead? && s.throwaway + s.toServer == s.message && s.serverCount == 0
        else s.server.LoopReading? && s.loopBuf + s.toServer == s.message && s.serverCount == s.i - 1)
  }

  ghost predicate AtServer(s: State) {
    s.client.Reading? && s.toClient == [] && s.clientBuf == [] && s.toServer == [] && s.i < s.rounds
    && s.server.LoopTop? && s.serverBytes == s.message && s.serverCount == s.i
  }

  ghost predicate ToClient(s: State) {
    s.client.Reading? && s.toServer == [] && s.i < s.rounds
    && s.server.LoopReading? && s.clientBuf + s.toClient == s.message && s.serverCount == s.i
  }

  // The client has closed; the server is about to see, or has seen, the end of the stream.
  ghost predicate Ending(s: State) {
    s.client.Finished? && s.i == s.rounds && s.toServer == [] && s.toClient == [] && s.clientBuf == []
    && (if s.rounds == 0 then (s.server.FirstRead? || s.server.Broken?) && s.serverCount == 0
        else if s.server.LoopReading? then s.serverCount == s.rounds - 1
        else (s.server.LoopTop? || s.server.Returned?) && s.done && s.serverCount == s.rounds)
  }

  ghost predicate Inv(s: State) {
    && IsLine(s.message)
    && s.clientBytes == s.message && s.clientCount == s.i <= s.rounds
    && (s.server.FirstRead? ==> s.loopBuf == [])
    && (!ToServer(s) ==> s.throwaway == [] && s.loopBuf == [])
    && (!s.server.FirstRead? ==> s.throwaway == [])
    && (!Ending(s) ==> !s.done)
    && (s.server.Returned? ==> s.done) && (s.server.LoopReading? ==> !s.done)
    && (AtClient(s) || ToServer(s) || AtServer(s) || ToClient(s) || Ending(s))
  }

  // A buffer that holds part of the message holds a line only when it holds all of it.
  lemma PartOfMessage(buf: seq<byte>, rest: seq<byte>, message: seq<byte>)
    requires IsLine(message) && buf + rest == message
    ensures HasLine(buf) ==> rest == [] && Line(buf) == message && AfterLine(buf) == []
    ensures !HasLine(buf) ==> rest != []
  {
    FirstIndexInPrefix(buf, rest, LF);
    if rest == [] { assert buf == message; }
  }

  lemma TakeFragment(buf: seq<byte>, available: seq<byte>, k: nat)
    requires k <= |available|
    ensures (buf + available[..k]) + available[k..] == buf + available
  {
  }

  lemma ClientKeepsInv(s: State, n: nat)
    requires Inv(s) && Enabled(s, Event(Client, n))
    ensures Inv(NextClient(s, n))
  {
    if ToClient(s) {
      PartOfMessage(s.clientBuf, s.toClient, s.message);
      if !HasLine(s.clientBuf) {
        TakeFragment(s.clientBuf, s.toClient, Fragment(n, s.toClient));
      }
    }
  }

  lemma ServerKeepsInv(s: State, n: nat)
    requires Inv(s) && Enabled(s, Event(Server, n))
    ensures Inv(NextServer(s, n))
  {
    if ToServer(s) && s.server.FirstRead? {
      PartOfMessage(s.throwaway, s.toServer, s.message);
      if !HasLine(s.throwaway) {
        TakeFragment(s.throwaway, s.toServer, Fragment(n, s.toServer));
      }
    } else if ToServer(s) {
      PartOfMessage(s.loopBuf, s.toServer, s.message);
      if !HasLine(s.loopBuf) {
        TakeFragment(s.loopBuf, s.toServer, Fragment(n, s.toServer));
      }
    }
  }

  lemma NextKeepsInv(s: State, e: Event)
    requires Inv(s) && Enabled(s, e)
    ensures Inv(Next(s, e)) && Next(s, e).message == s.message && Next(s, e).rounds == s.rounds
  {
    if e.side.Client? { ClientKeepsInv(s, e.n); } else { ServerKeepsInv(s, e.n); }
    hide Inv;
  }

  lemma {:induction false} RunKeepsInv(s: State, es: seq<Event>, t: State)
    requires Inv(s) && Run(s, es, t)
    ensures Inv(t) && t.message == s.message && t.rounds == s.rounds
    decreases es
  {
    hide Next;
    hide Inv;
    hide Enabled;
    if es != [] {
      NextKeepsInv(s, es[0]);
      RunKeepsInv(Next(s, es[0]), es[1..], t);
    }
  }

  lemma InitInv(message: seq<byte>, rounds: nat)
    requires IsLine(message)
    ensures Inv(Init(message, rounds))
  {
    assert AtClient(Init(message, rounds));
  }

  // ---------- safety ----------

  // Whatever the fragments and the schedule: the reader that is thrown away holds no byte when
  // it is; every line either side has read is the first message; at most one message is on its
  // way; and neither side fails, except that a client without any iteration breaks the server.
  lemma {:induction false} EchoIsFaithful(message: seq<byte>, rounds: nat, es: seq<Event>, s: State)
    requires IsLine(message) && Run(Init(message, rounds), es, s)
    ensures !s.server.FirstRead? ==> s.throwaway == []
    ensures s.clientBytes == message && (s.server.LoopTop? && !s.done ==> s.serverBytes == message)
    ensures |s.throwaway| + |s.loopBuf| + |s.clientBuf| + |s.toServer| + |s.toClient| <= |message|
    ensures !s.client.Failed? && (s.server.Broken? ==> rounds == 0)
  {
    InitInv(message, rounds);
    RunKeepsInv(Init(message, rounds), es, s);
    if ToClient(s) { assert |s.clientBuf + s.toClient| == |message|; }
    if ToServer(s) {
      assert |s.throwaway + s.toServer| == |message| || |s.loopBuf + s.toServer| == |message|;
    }
  }

  // Both sides count every iteration: when both have returned, each has recorded as many as
  // the client made.
  lemma {:induction false} BothCountAll(message: seq<byte>, rounds: nat, es: seq<Event>, s: State)
    requires IsLine(message) && Run(Init(message, rounds), es, s)
    requires s.client.Finished? && (s.server.Returned? || s.server.Broken?)
    ensures s.clientCount == rounds && s.serverCount == rounds
    ensures s.server.Broken? <==> rounds == 0
  {
    InitInv(message, rounds);
    RunKeepsInv(Init(message, rounds), es, s);
  }

  predicate Over(s: State) { s.client.Finished? && (s.server.Returned? || s.server.Broken?) }

  // Until then one of them can take a step, whatever the fragment.
  lemma {:induction false} NeverStuck(message: seq<byte>, rounds: nat, es: seq<Event>, s: State, n: nat)
    requires IsLine(message) && Run(Init(message, rounds), es, s)
    ensures Over(s) || Enabled(s, Event(Client, n)) || Enabled(s, Event(Server, n))
  {
    InitInv(message, rounds);
    RunKeepsInv(Init(message, rounds), es, s);
    if ToClient(s) { PartOfMessage(s.clientBuf, s.toClient, s.message); }
    if ToServer(s) {
      if s.server.FirstRead? {
        PartOfMessage(s.throwaway, s.toServer, s.message);
      } else {
        PartOfMessage(s.loopBuf, s.toServer, s.message);
      }
    }
  }

  // ---------- termination ----------

  // Bounds the steps left in the current iteration; a new iteration starts over.
  ghost function Phase(s: State): nat {
    if Ending(s) then
      (if s.server.FirstRead? || s.server.LoopReading? then 2 else if s.server.LoopTop? then 1 else 0)
    else if ToClient(s) then 1 + |s.toClient|
    else if AtServer(s) then 2 + |s.message|
    else if ToServer(s) then 3 + |s.message| + |s.toServer|
    else 4 + 2 * |s.message|
  }

  // Every step completes an iteration of the client or shortens the current one, so every
  // schedule comes to an end.
  lemma NextMakesProgress(s: State, e: Event)
    requires Inv(s) && Enabled(s, e)
    ensures var t := Next(s, e);
            s.i < t.i <= t.rounds == s.rounds || (t.i == s.i && t.rounds == s.rounds && Phase(t) < Phase(s))
  {
    NextKeepsInv(s, e);
    if e.side.Client? { ClientMakesProgress(s, e.n); } else { ServerMakesProgress(s, e.n); }
  }

  // Steps one iteration can take.
  function Lap(message: seq<byte>): nat { 4 + 2 * |message| }

  lemma PhaseWithinLap(s: State)
    requires Inv(s)
    ensures Phase(s) <= Lap(s.message)
    ensures s.client.Reading? ==> Phase(s) >= 1
  {
  }

  ghost function StepsLeft(s: State): int {
    (s.rounds - s.i) * Lap(s.message) + Phase(s)
  }

  lemma NextDecreasesStepsLeft(s: State, e: Event)
    requires Inv(s) && Enabled(s, e)
    ensures Inv(Next(s, e)) && StepsLeft(Next(s, e)) < StepsLeft(s)
    ensures Next(s, e).message == s.message && Next(s, e).rounds == s.rounds
  {
    hide *;
    NextKeepsInv(s, e);
    NextMakesProgress(s, e);
    PhaseWithinLap(s);
    PhaseWithinLap(Next(s, e));
    IterationsByOne(s, e);
    StepsLeftIs(s);
    StepsLeftIs(Next(s, e));
    var left, lap := s.rounds - s.i, Lap(s.message);
    assert left * lap == (left - 1) * lap + lap;
  }

  lemma StepsLeftIs(s: State)
    ensures StepsLeft(s) == (s.rounds - s.i) * Lap(s.message) + Phase(s)
  {
  }

  lemma IterationsByOne(s: State, e: Event)
    requires Enabled(s, e)
    ensures s.i <= Next(s, e).i <= s.i + 1
    ensures Next(s, e).i == s.i + 1 ==> s.client.Reading?
  {
    hide Line;
    hide AfterLine;
    hide Fragment;
  }

  lemma {:induction false} RunDecreasesStepsLeft(s: State, es: seq<Event>, t: State)
    requires Inv(s) && Run(s, es, t)
    ensures Inv(t) && t.message == s.message && t.rounds == s.rounds
    ensures |es| + StepsLeft(t) <= StepsLeft(s)
    decreases es
  {
    hide Next;
    hide Enabled;
    hide Inv;
    hide StepsLeft;
    if es != [] {
      NextDecreasesStepsLeft(s, es[0]);
      RunDecreasesStepsLeft(Next(s, es[0]), es[1..], t);
    }
  }

  // Under every schedule and fragmentation a run has at most two steps per byte and four more
  // for each iteration and for the end.
  lemma {:induction false} TerminationBound(message: seq<byte>, rounds: nat, es: seq<Event>, s: State)
    requires IsLine(message) && Run(Init(message, rounds), es, s)
    ensures |es| <= (rounds + 1) * (4 + 2 * |message|)
  {
    hide *;
    InitInv(message, rounds);
    RunDecreasesStepsLeft(Init(message, rounds), es, s);
    RoundsLeft(s);
    StepsLeftAtFirst(message, rounds);
  }

  lemma StepsLeftAtFirst(message: seq<byte>, rounds: nat)
    requires Inv(Init(message, rounds))
    ensures StepsLeft(Init(message, rounds)) <= (rounds + 1) * (4 + 2 * |message|)
  {
    PhaseWithinLap(Init(message, rounds));
    hide Inv;
    hide Phase;
    var lap := Lap(message);
    assert (rounds + 1) * lap == rounds * lap + lap;
  }

  lemma Product(left: int, lap: nat)
    ensures left >= 0 ==> left * lap >= 0
  {
  }

  lemma RoundsLeft(s: State)
    requires Inv(s)
    ensures StepsLeft(s) >= 0
  {
    hide Phase;
    Product(s.rounds - s.i, Lap(s.message));
  }

  lemma ClientMakesProgress(s: State, n: nat)
    requires Inv(s) && Enabled(s, Event(Client, n))
    ensures var t := NextClient(s, n); t.i == s.i + 1 || (t.i == s.i && Phase(t) < Phase(s))
  {
    ClientKeepsInv(s, n);
    if ToClient(s) { PartOfMessage(s.clientBuf, s.toClient, s.message); }
  }

  lemma ServerMakesProgress(s: State, n: nat)
    requires Inv(s) && Enabled(s, Event(Server, n))
    ensures var t := NextServer(s, n); t.i == s.i && Phase(t) < Phase(s)
  {
    ServerKeepsInv(s, n);
    if ToServer(s) {
      if s.server.FirstRead? {
        PartOfMessage(s.throwaway, s.toServer, s.message);
      } else {
        PartOfMessage(s.loopBuf, s.toServer, s.message);
      }
    }
  }

  lemma {:induction false} RunSnoc(s: State, es: seq<Event>, m: State, e: Event)
    requires Run(s, es, m) && Enabled(m, e)
    ensures Run(s, es + [e], Next(m, e))
    decreases es
  {
    hide Next;
    hide Enabled;
    if es == [] {
      assert Run(Next(m, e), [e][1..], Next(m, e));
    } else {
      RunSnoc(Next(s, es[0]), es[1..], m, e);
      assert (es + [e])[1..] == es[1..] + [e];
    }
  }

  // ---------- the totals over many connections ----------

  // The metrics of n clients with the given number of iterations each, and of the n server
  // connections that served them, add up to 2 * n * rounds.
  lemma {:induction false} TotalCount(clients: seq<nat>, runs: seq<seq<Event>>, ends: seq<State>, rounds: nat)
    requires |runs| == |ends| == |clients|
    requires forall k :: 0 <= k < |ends| ==>
               Run(Init(ClientMessage(clients[k]), rounds), runs[k], ends[k]) && Over(ends[k])
    ensures Sum(seq(|ends|, k requires 0 <= k < |ends| => ends[k].clientCount))
          + Sum(seq(|ends|, k requires 0 <= k < |ends| => ends[k].serverCount)) == 2 * |clients| * rounds
  {
    forall k | 0 <= k < |ends|
      ensures ends[k].clientCount == rounds && ends[k].serverCount == rounds
    {
      ClientMessageIsLine(clients[k]);
      BothCountAll(ClientMessage(clients[k]), rounds, runs[k], ends[k]);
    }
    SumOfEqual(seq(|ends|, k requires 0 <= k < |ends| => ends[k].clientCount), rounds);
    SumOfEqual(seq(|ends|, k requires 0 <= k < |ends| => ends[k].serverCount), rounds);
    assert 2 * |clients| * rounds == |clients| * rounds + |clients| * rounds;
  }

  // ---------- the two sides themselves ----------

  class Connection {
    const message: seq<byte>
    const rounds: nat
    var client: ClientPc
    var server: ServerPc
    var i: nat
    var done: bool
    var clientBytes: seq<byte>
    var serverBytes: seq<byte>
    var clientBuf: seq<byte>
    var throwaway: seq<byte>
    var loopBuf: seq<byte>
    var toServer: seq<byte>
    var toClient: seq<byte>
    var clientCount: nat
    var serverCount: nat

    ghost function Abs(): State
      reads this
    {
      State(message, rounds, client, server, i, done, clientBytes, serverBytes,
            clientBuf, throwaway, loopBuf, toServer, toClient, clientCount, serverCount)
    }

    constructor (message: seq<byte>, rounds: nat)
      ensures Abs() == Init(message, rounds)
    {
      this.message, this.rounds := message, rounds;
      client, server, i, done := Top, FirstRead, 0, false;
      clientBytes, serverBytes := message, [];
      clientBuf, throwaway, loopBuf, toServer, toClient := [], [], [], [], [];
      clientCount, serverCount := 0, 0;
    }

    predicate CanStep(side: Side)
      reads this
      ensures forall n: nat :: CanStep(side) == Enabled(Abs(), Event(side, n))
    {
      match side
      case Client =>
        client.Top? || (client.Reading? && (HasLine(clientBuf) || toClient != [] || server.Returned? || server.Broken?))
      case Server =>
        server.LoopTop?
        || ((server.FirstRead? || server.LoopReading?)
            && (HasLine(if server.FirstRead? then throwaway else loopBuf)
                || toServer != [] || client.Finished? || client.Failed?))
    }

    // The client's next step: a write, a read of up to n bytes, or the end of a line.
    method StepClient(n: nat)
      requires Enabled(Abs(), Event(Client, n))
      modifies this
      ensures Abs() == NextClient(old(Abs()), n)
    {
      hide Line;
      hide AfterLine;
      hide HasLine;
      if client.Top? {
        if i >= rounds {
          client := Finished;
        } else {
          toServer := toServer + clientBytes;
          client := Reading;
        }
      } else if HasLine(clientBuf) {
        clientBytes, clientBuf := Line(clientBuf), AfterLine(clientBuf);
        clientCount := clientCount + 1;
        i := i + 1;
        client := Top;
      } else if toClient != [] {
        var k := Fragment(n, toClient);
        clientBuf, toClient := clientBuf + toClient[..k], toClient[k..];
      } else {
        client := Failed;
      }
    }

    // The server's next step.
    method StepServer(n: nat)
      requires Enabled(Abs(), Event(Server, n))
      modifies this
      ensures Abs() == NextServer(old(Abs()), n)
    {
      hide Line;
      hide AfterLine;
      hide HasLine;
      match server
      case FirstRead =>
        if HasLine(throwaway) {
          serverBytes, throwaway := Line(throwaway), AfterLine(throwaway);
          server := LoopTop;
        } else if toServer != [] {
          var k := Fragment(n, toServer);
          throwaway, toServer := throwaway + toServer[..k], toServer[k..];
        } else {
          server := Broken;
        }
      case LoopTop =>
        if done {
          server := Returned;
        } else {
          toClient := toClient + serverBytes;
          server := LoopReading;
        }
      case LoopReading =>
        if HasLine(loopBuf) {
          serverBytes, loopBuf := Line(loopBuf), AfterLine(loopBuf);
          serverCount := serverCount + 1;
          server := LoopTop;
        } else if toServer != [] {
          var k := Fragment(n, toServer);
          loopBuf, toServer := loopBuf + toServer[..k], toServer[k..];
        } else if loopBuf == [] {
          done := true;
          serverCount := serverCount + 1;
          server := LoopTop;
        } else {
          server := Broken;
        }
    }

    // The whole connection, for every schedule of the sides and every size of the fragments.
    method RunToEnd(schedule: nat -> Event) returns (ghost es: seq<Event>)
      requires Abs() == Init(message, rounds) && IsLine(message)
      modifies this
      ensures Run(Init(message, rounds), es, Abs()) && Over(Abs())
      ensures clientCount == rounds && serverCount == rounds && (server.Returned? <==> rounds > 0)
    {
      es := [];
      var t := 0;
      InitInv(message, rounds);
      hide Inv;
      hide Phase;
      while !(client.Finished? && (server.Returned? || server.Broken?))
        invariant Run(Init(message, rounds), es, Abs()) && Inv(Abs()) && i <= rounds
        decreases rounds - i, Phase(Abs())
      {
        ghost var before := Abs();
        var e := schedule(t);
        NeverStuck(message, rounds, es, before, e.n);
        if !CanStep(e.side) { e := Event(if e.side.Client? then Server else Client, e.n); }
        if e.side.Client? { StepClient(e.n); } else { StepServer(e.n); }
        NextKeepsInv(before, e);
        NextMakesProgress(before, e);
        RunSnoc(Init(message, rounds), es, before, e);
        es := es + [e];
        t := t + 1;
      }
      BothCountAll(message, rounds, es, Abs());
    }
  }
}
