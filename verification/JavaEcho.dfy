/**
 The echo connection of the Java program. It differs from the Go one in how it reads: one call
 to SocketChannel.read per message, whose result must be the whole message, and in how it
 counts: an end of stream ends the loop before the iteration is recorded.
 */
module JavaEcho {
  import opened Bytes
  import opened Totals

  const BUFFER_SIZE: nat := 100

  datatype Side = Client | Server

  // One step of a side; a read takes at most n bytes.
  datatype Event = Event(side: Side, n: nat)

  datatype ClientPc = ClientTop | ClientReading | ClientDone
  datatype ServerPc = FirstRead | LoopTop | LoopReading | ServerDone

  // failed is set when a check throws; nothing is claimed of such runs.
  datatype State = State(
    message: seq<byte>, rounds: nat,
    client: ClientPc, server: ServerPc, failed: bool,
    i: nat, serverBytes: seq<byte>,
    toServer: seq<byte>, toClient: seq<byte>,
    clientCount: nat, serverCount: nat)

  function Init(message: seq<byte>, rounds: nat): State {
    State(message, rounds, ClientTop, FirstRead, false, 0, [], [], [], 0, 0)
  }

  predicate Enabled(s: State, e: Event) {
    !s.failed &&
    match e.side
    case Client =>
      (match s.client
       case ClientTop => true
       case ClientReading => s.toClient != [] || s.server.ServerDone?
       case ClientDone => false)
    case Server =>
      (match s.server
       case FirstRead => s.toServer != [] || s.client.ClientDone?
       case LoopTop => true
       case LoopReading => s.toServer != [] || s.client.ClientDone?
       case ServerDone => false)
  }

  // The number of bytes one read delivers.
  function Delivered(n: nat, available: seq<byte>): (k: nat)
    ensures k <= |available| && (available != [] ==> k >= 1)
  {
    var most := if |available| <= BUFFER_SIZE then |available| else BUFFER_SIZE;
    if most == 0 then 0 else if n == 0 then 1 else if n <= most then n else most
  }

  function NextClient(s: State, n: nat): State
    requires Enabled(s, Event(Client, n))
  {
    match s.client
    case ClientTop =>
      if s.i >= s.rounds then s.(client := ClientDone)
      else if |s.message| > BUFFER_SIZE then s.(failed := true)
      else s.(toServer := s.toServer + s.message, client := ClientReading)
    case ClientReading =>
      var k := Delivered(n, s.toClient);
      // nothing delivered is an end of stream, an error with an iterations stop condition
      if s.toClient == [] || s.toClient[..k] != s.message then s.(failed := true)
      else s.(toClient := s.toClient[k..], clientCount := s.clientCount + 1, i := s.i + 1, client := ClientTop)
  }

  function NextServer(s: State, n: nat): State
    requires Enabled(s, Event(Server, n))
  {
    var k := Delivered(n, s.toServer);
    match s.server
    case FirstRead =>
      s.(serverBytes := s.toServer[..k], toServer := s.toServer[k..], server := LoopTop)
    case LoopTop =>
      if s.serverBytes != [] && s.client.ClientDone? then s.(failed := true)
      else s.(toClient := s.toClient + s.serverBytes, server := LoopReading)
    case LoopReading =>
      if s.toServer == [] then s.(server := ServerDone)
      else if s.toServer[..k] != s.serverBytes then s.(failed := true)
      else s.(toServer := s.toServer[k..], serverCount := s.serverCount + 1, server := LoopTop)
  }

  function Next(s: State, e: Event): State
    requires Enabled(s, e)
  {
    if e.side.Client? then NextClient(s, e.n) else NextServer(s, e.n)
  }

  ghost predicate Run(s: State, es: seq<Event>, t: State)
    decreases es
  {
    if es == [] then s == t else Enabled(s, es[0]) && Run(Next(s, es[0]), es[1..], t)
  }

  // ---------- powers of a piece ----------

  function Power(w: seq<byte>, n: nat): seq<byte> {
    if n == 0 then [] else w + Power(w, n - 1)
  }

  // The message is n copies of a nonempty piece.
  ghost predicate IsPower(message: seq<byte>, n: nat) {
    exists w :: w != [] && message == Power(w, n)
  }

  ghost predicate ProperPower(message: seq<byte>) {
    exists n: nat :: n >= 2 && IsPower(message, n)
  }

  lemma {:induction false} PowerLength(w: seq<byte>, n: nat)
    ensures |Power(w, n)| == n * |w|
  {
    if n > 0 {
      PowerLength(w, n - 1);
      assert n * |w| == (n - 1) * |w| + |w|;
    }
  }

  lemma {:induction false} PowerSnoc(w: seq<byte>, n: nat)
    ensures Power(w, n) + w == Power(w, n + 1)
  {
    if n == 0 {
      assert Power(w, 0) + w == w && Power(w, 1) == w + [];
    } else {
      PowerSnoc(w, n - 1);
      assert Power(w, n) + w == w + (Power(w, n - 1) + w);
    }
  }

  // Equal powers of one piece have equal exponents.
  lemma PowerInjective(w: seq<byte>, m: nat, n: nat)
    requires w != [] && |Power(w, m)| == |Power(w, n)|
    ensures m == n
  {
    PowerLength(w, m);
    PowerLength(w, n);
    assert (m - n) * |w| == m * |w| - n * |w|;
    ZeroFactor(m - n, |w|);
  }

  lemma ZeroFactor(x: int, k: int)
    requires x * k == 0 && k != 0
    ensures x == 0
  {
  }

  lemma PositivePower(message: seq<byte>, n: nat)
    requires message != [] && IsPower(message, n)
    ensures n > 0
  {
  }

  // A message is trivially one copy of itself.
  lemma PowerOne(w: seq<byte>)
    ensures Power(w, 1) == w
  {
    assert Power(w, 1) == w + Power(w, 0);
  }

  // ---------- the invariant, for reads of any size ----------

  // The client is between two messages. The server has cut each of them into j pieces, all
  // equal to the first one it read.
  ghost predicate AtTop(s: State, j: nat) {
    && s.client.ClientTop? && s.toServer == [] && s.toClient == []
    && (if s.i == 0 then s.server.FirstRead? && s.serverCount == 0 && s.serverBytes == []
        else s.server.LoopReading? && Pieces(s, j, 0))
  }

  ghost predicate Sent(s: State) {
    && s.client.ClientReading? && s.i == 0 < s.rounds && s.server.FirstRead?
    && s.toServer == s.message && s.toClient == [] && s.serverCount == 0 && s.serverBytes == []
  }

  // The server has read a pieces of the message on its way.
  ghost predicate Echoing(s: State, j: nat, a: nat) {
    && s.client.ClientReading? && s.i < s.rounds
    && (if s.server.LoopTop? then a > 0 else s.server.LoopReading?)
    && s.message == Power(s.serverBytes, a) + s.toServer
    && s.toClient == Power(s.serverBytes, if s.server.LoopTop? then a - 1 else a)
    && Pieces(s, j, a)
  }

  // All pieces read so far: j for each message answered and a more.
  ghost predicate Pieces(s: State, j: nat, a: nat) {
    && s.serverBytes != [] && s.serverCount + 1 == s.i * j + a
    && (s.i > 0 ==> s.message == Power(s.serverBytes, j))
  }

  ghost predicate Ending(s: State, j: nat) {
    && s.client.ClientDone? && s.i == s.rounds && s.toServer == [] && s.toClient == []
    && (if s.rounds == 0 then s.serverBytes == [] && s.serverCount == 0
        else (s.server.LoopReading? || s.server.ServerDone?) && Pieces(s, j, 0))
  }

  ghost predicate Inv(s: State, j: nat, a: nat) {
    && s.message != [] && |s.message| <= BUFFER_SIZE && |s.serverBytes| <= BUFFER_SIZE
    && (s.failed || (s.clientCount == s.i <= s.rounds
                     && (AtTop(s, j) || Sent(s) || Echoing(s, j, a) || Ending(s, j))))
  }

  lemma ClientKeepsInv(s: State, n: nat, j: nat, a: nat) returns (k: nat, b: nat)
    requires Inv(s, j, a) && Enabled(s, Event(Client, n))
    ensures Inv(NextClient(s, n), k, b)
  {
    k, b := j, a;
    var t := NextClient(s, n);
    if AtTop(s, j) {
      b := 0;
      assert s.message == Power(s.serverBytes, 0) + s.message;
    } else if Echoing(s, j, a) && !t.failed {
      AnswerIsWhole(s, n, j, a);
      k, b := a, 0;
      assert (s.i + 1) * a == s.i * a + a;
    }
  }

  // An answer that passes the client's check takes all bytes there are.
  lemma AnswerIsWhole(s: State, n: nat, j: nat, a: nat)
    requires Inv(s, j, a) && Echoing(s, j, a) && Enabled(s, Event(Client, n)) && !NextClient(s, n).failed
    ensures s.toServer == [] && s.toClient == s.message == Power(s.serverBytes, a) && !s.server.LoopTop?
    ensures NextClient(s, n).toClient == []
    ensures s.i > 0 ==> a == j
  {
    var m := Delivered(n, s.toClient);
    assert |s.toClient| >= |s.message|;
    var b := if s.server.LoopTop? then a - 1 else a;
    PowerLength(s.serverBytes, a);
    PowerLength(s.serverBytes, b);
    assert a * |s.serverBytes| == b * |s.serverBytes| + (a - b) * |s.serverBytes|;
    assert |s.message| == |s.toClient| + |s.toServer|;
    assert s.toClient[..|s.toClient|] == s.toClient;
    if s.i > 0 { PowerInjective(s.serverBytes, a, j); }
  }

  lemma ServerKeepsInv(s: State, n: nat, j: nat, a: nat) returns (b: nat)
    requires Inv(s, j, a) && Enabled(s, Event(Server, n))
    ensures Inv(NextServer(s, n), j, b)
  {
    b := a;
    if Sent(s) {
      b := 1;
      FirstPieceKeepsInv(s, n, j, a);
    } else if Echoing(s, j, a) && s.server.LoopTop? {
      EchoKeepsInv(s, n, j, a);
    } else if Echoing(s, j, a) {
      if !NextServer(s, n).failed {
        b := a + 1;
        NextPieceKeepsInv(s, n, j, a);
      }
    } else {
      hide Power;
    }
  }

  lemma EchoKeepsInv(s: State, n: nat, j: nat, a: nat)
    requires Inv(s, j, a) && Echoing(s, j, a) && s.server.LoopTop? && Enabled(s, Event(Server, n))
    ensures Inv(NextServer(s, n), j, a)
  {
    PowerSnoc(s.serverBytes, a - 1);
    hide Power;
    hide Delivered;
    assert Echoing(NextServer(s, n), j, a);
  }

  lemma FirstPieceKeepsInv(s: State, n: nat, j: nat, a: nat)
    requires Inv(s, j, a) && Sent(s) && Enabled(s, Event(Server, n))
    ensures Inv(NextServer(s, n), j, 1)
  {
    var t, m := NextServer(s, n), Delivered(n, s.toServer);
    PowerOne(t.serverBytes);
    assert s.message == s.message[..m] + s.message[m..];
    assert Power(t.serverBytes, 0) == [];
    hide Power;
    hide Delivered;
    assert Echoing(t, j, 1) || s.failed;
  }

  lemma NextPieceKeepsInv(s: State, n: nat, j: nat, a: nat)
    requires Inv(s, j, a) && Echoing(s, j, a) && s.server.LoopReading? && Enabled(s, Event(Server, n))
    requires !NextServer(s, n).failed
    ensures Inv(NextServer(s, n), j, a + 1)
  {
    var t, m := NextServer(s, n), Delivered(n, s.toServer);
    PowerSnoc(s.serverBytes, a);
    hide Power;
    hide Delivered;
    assert s.toServer == s.serverBytes + t.toServer;
    assert s.message == Power(s.serverBytes, a) + s.serverBytes + t.toServer;
    assert Echoing(t, j, a + 1);
  }

  lemma NextKeepsInv(s: State, e: Event, j: nat, a: nat) returns (k: nat, b: nat)
    requires Inv(s, j, a) && Enabled(s, e)
    ensures Inv(Next(s, e), k, b)
    ensures Next(s, e).message == s.message && Next(s, e).rounds == s.rounds
  {
    hide Inv;
    if e.side.Client? {
      k, b := ClientKeepsInv(s, e.n, j, a);
    } else {
      k := j;
      b := ServerKeepsInv(s, e.n, j, a);
    }
  }

  lemma {:induction false} RunKeepsInv(s: State, es: seq<Event>, t: State, j: nat, a: nat) returns (k: nat, b: nat)
    requires Inv(s, j, a) && Run(s, es, t)
    ensures Inv(t, k, b) && t.message == s.message && t.rounds == s.rounds
    decreases es
  {
    hide Next;
    hide Inv;
    hide Enabled;
    k, b := j, a;
    if es != [] {
      k, b := NextKeepsInv(s, es[0], j, a);
      k, b := RunKeepsInv(Next(s, es[0]), es[1..], t, k, b);
    }
  }

  lemma InitInv(message: seq<byte>, rounds: nat)
    requires message != [] && |message| <= BUFFER_SIZE
    ensures Inv(Init(message, rounds), 1, 0)
  {
    assert AtTop(Init(message, rounds), 1);
  }

  // ---------- the counts ----------

  // Both sides are done and no check has thrown.
  predicate Completed(s: State) {
    s.client.ClientDone? && s.server.ServerDone? && !s.failed
  }

  function Recorded(rounds: nat): nat { if rounds == 0 then 0 else rounds - 1 }

  // Whatever the sizes of the reads: in a run that completes, the server has taken every
  // message for the same number of equal pieces, and has recorded all pieces but one.
  lemma {:induction false} PiecesAreRecorded(message: seq<byte>, rounds: nat, es: seq<Event>, s: State)
      returns (j: nat)
    requires message != [] && |message| <= BUFFER_SIZE
    requires Run(Init(message, rounds), es, s) && Completed(s)
    ensures s.clientCount == rounds && (rounds == 0 ==> s.serverCount == 0)
    ensures rounds > 0 ==> IsPower(message, j) && s.serverCount + 1 == rounds * j
  {
    InitInv(message, rounds);
    var a;
    j, a := RunKeepsInv(Init(message, rounds), es, s, 1, 0);
    assert Ending(s, j);
    assert rounds > 0 ==> s.serverBytes != [] && message == Power(s.serverBytes, j);
  }

  // So unless the message repeats itself, the client records every iteration and the server
  // one less, the one that met the end of the stream.
  lemma {:induction false} ServerCountsOneLess(message: seq<byte>, rounds: nat, es: seq<Event>, s: State)
    requires message != [] && |message| <= BUFFER_SIZE
    requires Run(Init(message, rounds), es, s) && Completed(s)
    requires !ProperPower(message)
    ensures s.clientCount == rounds && s.serverCount == Recorded(rounds)
  {
    var j := PiecesAreRecorded(message, rounds, es, s);
    if rounds > 0 {
      PositivePower(message, j);
      assert j < 2;
    }
  }

  // ---------- runs that cut messages into pieces ----------

  // Before message i of a run that cuts every message into j pieces w.
  function TopOf(w: seq<byte>, j: nat, rounds: nat, i: nat): State {
    State(Power(w, j), rounds, ClientTop, if i == 0 then FirstRead else LoopReading, false,
          i, if i == 0 then [] else w, [], [], i, if i * j == 0 then 0 else i * j - 1)
  }

  // After piece a of message i has been read.
  function MidOf(w: seq<byte>, j: nat, rounds: nat, i: nat, a: nat): State
    requires 0 < a <= j
  {
    State(Power(w, j), rounds, ClientReading, LoopTop, false,
          i, w, Power(w, j - a), Power(w, a - 1), i, i * j + a - 1)
  }

  function EndOf(w: seq<byte>, j: nat, rounds: nat): State {
    TopOf(w, j, rounds, rounds).(client := ClientDone, server := ServerDone)
  }

  lemma PieceIsRead(w: seq<byte>, n: nat)
    requires w != [] && n > 0 && |Power(w, n)| <= BUFFER_SIZE
    ensures Delivered(|w|, Power(w, n)) == |w| && Power(w, n)[..|w|] == w && Power(w, n)[|w|..] == Power(w, n - 1)
  {
  }

  lemma PowersGrow(w: seq<byte>, m: nat, n: nat)
    requires m <= n
    ensures |Power(w, m)| <= |Power(w, n)|
  {
    PowerLength(w, m);
    PowerLength(w, n);
    assert n * |w| == m * |w| + (n - m) * |w|;
  }

  lemma RunCons(s: State, e: Event, es: seq<Event>, t: State)
    requires Enabled(s, e) && Run(Next(s, e), es, t)
    ensures Run(s, [e] + es, t)
  {
    hide Next;
    hide Enabled;
    assert ([e] + es)[1..] == es;
  }

  lemma {:induction false} FromTop(w: seq<byte>, j: nat, rounds: nat, i: nat) returns (es: seq<Event>)
    requires w != [] && j > 0 && |Power(w, j)| <= BUFFER_SIZE && i <= rounds && rounds > 0
    ensures Run(TopOf(w, j, rounds, i), es, EndOf(w, j, rounds))
    decreases rounds - i, j + 1
  {
    var s, c, r := TopOf(w, j, rounds, i), Event(Client, 0), Event(Server, |w|);
    var t := Next(s, c);
    if i == rounds {
      assert Next(t, r) == EndOf(w, j, rounds);
      assert Run(Next(t, r), [], EndOf(w, j, rounds));
      RunCons(t, r, [], EndOf(w, j, rounds));
      RunCons(s, c, [r], EndOf(w, j, rounds));
      es := [c] + [r];
    } else {
      PieceIsRead(w, j);
      assert [] + Power(w, j) == Power(w, j);
      TopToMid(w, j, rounds, i);
      es := FromMid(w, j, rounds, i, 1);
      hide Next;
      RunCons(t, r, es, EndOf(w, j, rounds));
      RunCons(s, c, [r] + es, EndOf(w, j, rounds));
      es := [c] + ([r] + es);
    }
  }

  lemma TopToMid(w: seq<byte>, j: nat, rounds: nat, i: nat)
    requires w != [] && j > 0 && |Power(w, j)| <= BUFFER_SIZE && i < rounds
    ensures var s, c, r := TopOf(w, j, rounds, i), Event(Client, 0), Event(Server, |w|);
            Enabled(Next(s, c), r) && Next(Next(s, c), r) == MidOf(w, j, rounds, i, 1)
  {
    hide *;
    TopSends(w, j, rounds, i);
    var t := Next(TopOf(w, j, rounds, i), Event(Client, 0));
    PowersGrow(w, 1, j);
    PowerOne(w);
    SentIsRead(w, j, rounds, i, t);
  }

  lemma TopSends(w: seq<byte>, j: nat, rounds: nat, i: nat)
    requires |Power(w, j)| <= BUFFER_SIZE && i < rounds
    ensures var s, c := TopOf(w, j, rounds, i), Event(Client, 0);
            Enabled(s, c) && Next(s, c) == s.(toServer := Power(w, j), client := ClientReading)
  {
    hide Power;
  }

  lemma SentIsRead(w: seq<byte>, j: nat, rounds: nat, i: nat, t: State)
    requires w != [] && j > 0 && |w| <= |Power(w, j)| <= BUFFER_SIZE && i < rounds
    requires t == TopOf(w, j, rounds, i).(toServer := Power(w, j), client := ClientReading)
    ensures Enabled(t, Event(Server, |w|)) && Next(t, Event(Server, |w|)) == MidOf(w, j, rounds, i, 1)
  {
    PieceIsRead(w, j);
    CountBefore(i, j);
    hide Delivered;
    var rest := Power(w, j - 1);
    assert Power(w, 0) == [];
    hide Power;
  }

  lemma CountBefore(i: nat, j: nat)
    requires j > 0
    ensures i == 0 ==> i * j == 0
    ensures i > 0 ==> i * j > 0
  {
  }

  function EchoedOf(w: seq<byte>, j: nat, rounds: nat, i: nat, a: nat): State
    requires 0 < a <= j
  {
    MidOf(w, j, rounds, i, a).(toClient := Power(w, a), server := LoopReading)
  }

  lemma PieceIsEchoed(w: seq<byte>, j: nat, rounds: nat, i: nat, a: nat)
    requires w != [] && 0 < a <= j
    ensures var s, r := MidOf(w, j, rounds, i, a), Event(Server, |w|);
            Enabled(s, r) && Next(s, r) == EchoedOf(w, j, rounds, i, a)
  {
    PowerSnoc(w, a - 1);
    hide Power;
  }

  lemma NextPieceIsRead(w: seq<byte>, j: nat, rounds: nat, i: nat, a: nat)
    requires w != [] && 0 < a < j && |Power(w, j)| <= BUFFER_SIZE
    ensures var t, r := EchoedOf(w, j, rounds, i, a), Event(Server, |w|);
            Enabled(t, r) && Next(t, r) == MidOf(w, j, rounds, i, a + 1)
  {
    PowersGrow(w, j - a, j);
    var t, rest := EchoedOf(w, j, rounds, i, a), Power(w, j - a - 1);
    assert t.toServer == w + rest;
    ReadsPiece(t, rest);
    hide Next;
    hide Power;
    assert i * j + a - 1 + 1 == i * j + (a + 1) - 1;
  }

  lemma ReadsPiece(t: State, rest: seq<byte>)
    requires t.server.LoopReading? && !t.failed && t.serverBytes != []
    requires t.toServer == t.serverBytes + rest && |t.toServer| <= BUFFER_SIZE
    ensures var r := Event(Server, |t.serverBytes|);
            && Enabled(t, r)
            && Next(t, r) == t.(toServer := rest, serverCount := t.serverCount + 1, server := LoopTop)
  {
    assert t.toServer[..|t.serverBytes|] == t.serverBytes && t.toServer[|t.serverBytes|..] == rest;
  }

  lemma AnswerIsRead(w: seq<byte>, j: nat, rounds: nat, i: nat)
    requires w != [] && j > 0 && |Power(w, j)| <= BUFFER_SIZE && i < rounds
    ensures var t, c := EchoedOf(w, j, rounds, i, j), Event(Client, BUFFER_SIZE);
            Enabled(t, c) && Next(t, c) == TopOf(w, j, rounds, i + 1)
  {
    PowersGrow(w, 1, j);
    PowerOne(w);
    CountBefore(i + 1, j);
    assert (i + 1) * j == i * j + j;
    var answer := Power(w, j);
    assert answer[..|answer|] == answer && answer[|answer|..] == [];
    assert Power(w, 0) == [];
    hide Power;
  }

  lemma {:induction false} FromMid(w: seq<byte>, j: nat, rounds: nat, i: nat, a: nat) returns (es: seq<Event>)
    requires w != [] && 0 < a <= j && |Power(w, j)| <= BUFFER_SIZE && i < rounds
    ensures Run(MidOf(w, j, rounds, i, a), es, EndOf(w, j, rounds))
    decreases rounds - i, j - a
  {
    var s, r := MidOf(w, j, rounds, i, a), Event(Server, |w|);
    var t := s.(toClient := Power(w, a), server := LoopReading);
    assert t == EchoedOf(w, j, rounds, i, a);
    PieceIsEchoed(w, j, rounds, i, a);
    if a < j {
      es := FromMid(w, j, rounds, i, a + 1);
      NextPieceIsRead(w, j, rounds, i, a);
      hide *;
      RunCons(t, r, es, EndOf(w, j, rounds));
      RunCons(s, r, [r] + es, EndOf(w, j, rounds));
      es := [r] + ([r] + es);
    } else {
      var c := Event(Client, BUFFER_SIZE);
      es := FromTop(w, j, rounds, i + 1);
      AnswerIsRead(w, j, rounds, i);
      hide *;
      RunCons(t, c, es, EndOf(w, j, rounds));
      RunCons(s, r, [c] + es, EndOf(w, j, rounds));
      es := [r] + ([c] + es);
    }
  }

  ghost predicate Reachable(message: seq<byte>, rounds: nat, s: State) {
    exists es :: Run(Init(message, rounds), es, s)
  }

  // Some run that completes leaves the server with this count.
  ghost predicate CanRecord(message: seq<byte>, rounds: nat, count: nat) {
    exists s :: Reachable(message, rounds, s) && Completed(s) && s.serverCount == count
  }

  // The counts the server can end with are exactly those of the ways to cut the message into
  // equal pieces.
  lemma {:induction false} CountsArePieces(message: seq<byte>, rounds: nat, count: nat)
    requires message != [] && |message| <= BUFFER_SIZE && rounds > 0
    ensures CanRecord(message, rounds, count)
       <==> exists j: nat :: IsPower(message, j) && count + 1 == rounds * j
  {
    if CanRecord(message, rounds, count) {
      var s :| Reachable(message, rounds, s) && Completed(s) && s.serverCount == count;
      var es :| Run(Init(message, rounds), es, s);
      var j := PiecesAreRecorded(message, rounds, es, s);
    }
    if j: nat :| IsPower(message, j) && count + 1 == rounds * j {
      var w :| w != [] && message == Power(w, j);
      var es := FromTop(w, j, rounds, 0);
      assert TopOf(w, j, rounds, 0) == Init(message, rounds);
      var s := EndOf(w, j, rounds);
      assert Reachable(message, rounds, s);
    }
  }

  // A run that completes can leave the server with another count than Recorded if and only if
  // there is an iteration and the message is a shorter piece repeated.
  lemma {:induction false} MiscountsIff(message: seq<byte>, rounds: nat)
    requires message != [] && |message| <= BUFFER_SIZE
    ensures (exists count :: CanRecord(message, rounds, count) && count != Recorded(rounds))
       <==> rounds > 0 && ProperPower(message)
  {
    if count :| CanRecord(message, rounds, count) && count != Recorded(rounds) {
      var s :| Reachable(message, rounds, s) && Completed(s) && s.serverCount == count;
      var es :| Run(Init(message, rounds), es, s);
      if !ProperPower(message) { ServerCountsOneLess(message, rounds, es, s); }
      var j := PiecesAreRecorded(message, rounds, es, s);
    }
    if rounds > 0 && ProperPower(message) {
      var j: nat :| j >= 2 && IsPower(message, j);
      assert rounds * j >= rounds * 2;
      CountsArePieces(message, rounds, rounds * j - 1);
      assert CanRecord(message, rounds, rounds * j - 1);
    }
  }

  // Clients are named by a number with leading zeros. With one digit no name repeats itself;
  // with more, the first client's name is all zeros, and does.
  lemma {:induction false} OneDigitIsSafe(digit: byte)
    ensures !ProperPower([digit])
  {
    forall w: seq<byte>, j: nat | j >= 2 && w != []
      ensures |Power(w, j)| >= 2
    {
      PowerLength(w, j);
      assert j * |w| >= 2;
    }
  }

  lemma {:induction false} ZerosRepeat(width: nat, name: seq<byte>)
    requires width >= 2 && name == seq(width, _ => 48 as byte)
    ensures ProperPower(name)
  {
    ZerosArePower(width);
    assert IsPower(name, width);
  }

  lemma {:induction false} ZerosArePower(width: nat)
    ensures Power([48], width) == seq(width, _ => 48 as byte)
  {
    if width > 0 {
      ZerosArePower(width - 1);
      assert Power([48], width) == [48] + Power([48], width - 1);
    }
  }

  // ---------- reads that are never short ----------

  ghost predicate Whole(es: seq<Event>) {
    forall k :: 0 <= k < |es| ==> es[k].n >= BUFFER_SIZE
  }

  lemma NextNeverFails(s: State, e: Event, j: nat, a: nat)
    requires Inv(s, j, a) && !s.failed && Enabled(s, e) && e.n >= BUFFER_SIZE
    requires s.serverBytes == [] || s.serverBytes == s.message
    ensures !Next(s, e).failed && (Next(s, e).serverBytes == [] || Next(s, e).serverBytes == s.message)
  {
    assert s.toServer[..|s.toServer|] == s.toServer && s.toClient[..|s.toClient|] == s.toClient;
    if Echoing(s, j, a) {
      PowerLength(s.message, a);
      if a == 0 {
        assert s.toServer == s.message && s.toClient == [];
      } else {
        assert a * |s.message| == (a - 1) * |s.message| + |s.message|;
        assert |s.message| == a * |s.message| + |s.toServer|;
        assert (a - 1) * |s.message| == 0;
        PowersGrow(s.message, if s.server.LoopTop? then a - 1 else a, a);
        assert s.toServer == [];
        ZeroFactor(a - 1, |s.message|);
        PowerOne(s.message);
      }
    }
  }

  lemma {:induction false} RunNeverFails(s: State, es: seq<Event>, t: State, j: nat, a: nat)
    requires Inv(s, j, a) && !s.failed && Whole(es) && Run(s, es, t)
    requires s.serverBytes == [] || s.serverBytes == s.message
    ensures !t.failed && (t.serverBytes == [] || t.serverBytes == s.message)
    decreases es
  {
    hide Next;
    hide Inv;
    hide Enabled;
    if es != [] {
      assert forall k :: 0 <= k < |es[1..]| ==> es[1..][k] == es[k + 1];
      var k, b := NextKeepsInv(s, es[0], j, a);
      NextNeverFails(s, es[0], j, a);
      RunNeverFails(Next(s, es[0]), es[1..], t, k, b);
    }
  }

  // When no read is short, no check throws, and the count is right for every message.
  lemma {:induction false} WholeReadsNeverFail(message: seq<byte>, rounds: nat, es: seq<Event>, s: State)
    requires message != [] && |message| <= BUFFER_SIZE
    requires Whole(es) && Run(Init(message, rounds), es, s)
    ensures !s.failed
    ensures Completed(s) ==> s.clientCount == rounds && s.serverCount == Recorded(rounds)
  {
    InitInv(message, rounds);
    RunNeverFails(Init(message, rounds), es, s, 1, 0);
    var j, a := RunKeepsInv(Init(message, rounds), es, s, 1, 0);
    if Completed(s) && rounds > 0 {
      assert Ending(s, j);
      PowerOne(message);
      PowerInjective(message, j, 1);
    }
  }

  // n connections with rounds iterations each: the totals of clients and servers add up to
  // n * (2 * rounds - 1) instead of 2 * n * rounds, for names that do not repeat themselves
  // and for reads that are not short.
  lemma {:induction false} TotalCount(names: seq<seq<byte>>, runs: seq<seq<Event>>, ends: seq<State>, rounds: nat)
    requires |runs| == |ends| == |names| && rounds > 0
    requires forall k :: 0 <= k < |ends| ==>
               && names[k] != [] && |names[k]| <= BUFFER_SIZE
               && (Whole(runs[k]) || !ProperPower(names[k]))
               && Run(Init(names[k], rounds), runs[k], ends[k]) && Completed(ends[k])
    ensures Sum(seq(|ends|, k requires 0 <= k < |ends| => ends[k].clientCount))
          + Sum(seq(|ends|, k requires 0 <= k < |ends| => ends[k].serverCount)) == |names| * (2 * rounds - 1)
  {
    hide Run;
    hide Completed;
    forall k | 0 <= k < |ends|
      ensures ends[k].clientCount == rounds && ends[k].serverCount == rounds - 1
    {
      if Whole(runs[k]) {
        WholeReadsNeverFail(names[k], rounds, runs[k], ends[k]);
      } else {
        ServerCountsOneLess(names[k], rounds, runs[k], ends[k]);
      }
    }
    SumOfCounts(ends, rounds);
  }

  lemma SumOfCounts(ends: seq<State>, rounds: nat)
    requires rounds > 0
    requires forall k :: 0 <= k < |ends| ==> ends[k].clientCount == rounds && ends[k].serverCount == rounds - 1
    ensures Sum(seq(|ends|, k requires 0 <= k < |ends| => ends[k].clientCount))
          + Sum(seq(|ends|, k requires 0 <= k < |ends| => ends[k].serverCount)) == |ends| * (2 * rounds - 1)
  {
    hide Sum;
    SumOfEqual(seq(|ends|, k requires 0 <= k < |ends| => ends[k].clientCount), rounds);
    SumOfEqual(seq(|ends|, k requires 0 <= k < |ends| => ends[k].serverCount), rounds - 1);
    assert |ends| * (2 * rounds - 1) == |ends| * rounds + |ends| * (rounds - 1);
  }

  // ---------- progress ----------

  predicate Over(s: State) {
    s.failed || Completed(s)
  }

  // Until a check throws or both are done, one of the sides can move.
  lemma {:induction false} NeverStuck(message: seq<byte>, rounds: nat, es: seq<Event>, s: State, n: nat)
    requires message != [] && |message| <= BUFFER_SIZE
    requires Run(Init(message, rounds), es, s)
    ensures Over(s) || Enabled(s, Event(Client, n)) || Enabled(s, Event(Server, n))
  {
    InitInv(message, rounds);
    var j, a := RunKeepsInv(Init(message, rounds), es, s, 1, 0);
    hide Run;
    if Echoing(s, j, a) && a > 0 {
      PowersGrow(s.serverBytes, 1, a);
      PowerOne(s.serverBytes);
    }
  }

  function ClientLeft(s: State): nat {
    if s.i < s.rounds then s.rounds - s.i else 0
  }

  // Two steps for each of the bytes the client has still to send.
  function SendLeft(s: State): nat {
    Twice(if s.client.ClientReading? && ClientLeft(s) > 0 then ClientLeft(s) - 1 else ClientLeft(s), |s.message|)
  }

  function Twice(n: nat, length: nat): nat { 2 * (n * length) }

  lemma TwiceOneMore(n: nat, length: nat)
    ensures Twice(n + 1, length) == Twice(n, length) + 2 * length
  {
  }

  function ServerLeft(pc: ServerPc): nat {
    match pc
    case FirstRead => 3
    case LoopTop => 2
    case LoopReading => 1
    case ServerDone => 0
  }

  // Bytes the server has still to read, two steps for each, and what remains of both programs.
  function Rank(s: State): nat {
    if s.failed then 0
    else
      SendLeft(s) + 2 * |s.toServer| + 2 * ClientLeft(s)
      + (if s.client.ClientTop? then 1 else 0) + ServerLeft(s.server)
  }

  // The client waits only for an answer to a message it has sent.
  predicate Counting(s: State) {
    s.client.ClientReading? ==> s.i < s.rounds
  }

  lemma NextDecreasesRank(s: State, e: Event)
    requires Counting(s) && Enabled(s, e)
    ensures Counting(Next(s, e)) && Rank(Next(s, e)) < Rank(s)
  {
    if e.side.Client? && s.i < s.rounds { TwiceOneMore(s.rounds - s.i - 1, |s.message|); }
    hide Twice;
  }

  lemma {:induction false} RunDecreasesRank(s: State, es: seq<Event>, t: State)
    requires Counting(s) && Run(s, es, t)
    ensures |es| + Rank(t) <= Rank(s)
    decreases es
  {
    hide Next;
    hide Enabled;
    hide Rank;
    hide Counting;
    if es != [] {
      NextDecreasesRank(s, es[0]);
      RunDecreasesRank(Next(s, es[0]), es[1..], t);
    }
  }

  // Every run is finite, whatever the sizes of the reads: at most two steps per byte sent, two
  // per iteration and four more.
  lemma {:induction false} TerminationBound(message: seq<byte>, rounds: nat, es: seq<Event>, s: State)
    requires Run(Init(message, rounds), es, s)
    ensures |es| <= 2 * (rounds * |message|) + 2 * rounds + 4
  {
    RunDecreasesRank(Init(message, rounds), es, s);
    hide Run;
    assert Twice(rounds, |message|) == 2 * (rounds * |message|);
    hide Twice;
  }

  // ---------- the buffer ----------

  // The part of ByteBuffer that Common uses.
  class ByteBuffer {
    const data: array<byte>
    var position: nat
    var limit: nat

    ghost predicate Valid()
      reads this
    {
      position <= limit <= data.Length
    }

    constructor (capacity: nat)
      ensures Valid() && fresh(data) && data.Length == capacity && position == 0 && limit == capacity
    {
      data := new byte[capacity];
      position, limit := 0, capacity;
    }

    method Clear()
      modifies this
      ensures Valid() && position == 0 && limit == data.Length
    {
      position, limit := 0, data.Length;
    }

    // False, and no change, where put throws because the bytes do not fit.
    method Put(bytes: seq<byte>) returns (ok: bool)
      requires Valid()
      modifies this`position, data
      ensures Valid() && ok == (|bytes| <= limit - old(position))
      ensures ok ==> position == old(position) + |bytes| && data[old(position)..position] == bytes
      ensures !ok ==> position == old(position)
    {
      ok := |bytes| <= limit - position;
      if ok {
        for k := 0 to |bytes|
          modifies data
          invariant forall m :: 0 <= m < k ==> data[position + m] == bytes[m]
        {
          data[position + k] := bytes[k];
        }
        assert data[position..position + |bytes|] == bytes;
        position := position + |bytes|;
      }
    }

    method Flip()
      requires Valid()
      modifies this
      ensures Valid() && position == 0 && limit == old(position)
    {
      limit := position;
      position := 0;
    }
  }

  // Common.write on a channel that takes all remaining bytes: afterwards the channel holds
  // exactly what it held and the message, or the message does not fit the buffer.
  method Write(channel: seq<byte>, buf: ByteBuffer, bytes: seq<byte>) returns (ok: bool, sent: seq<byte>)
    requires buf.Valid()
    modifies buf, buf.data
    ensures buf.Valid() && ok == (|bytes| <= buf.data.Length)
    ensures sent == if ok then channel + bytes else channel
  {
    buf.Clear();
    ok := buf.Put(bytes);
    sent := channel;
    if ok {
      buf.Flip();
      sent := channel + buf.data[buf.position..buf.limit];
      buf.position := buf.limit;
    }
  }

  datatype ReadResult = EndOfStream | Read(bytes: seq<byte>) | CheckFailed

  // Common.read: at most n bytes are delivered, and what arrives must be what is expected, if
  // anything is.
  method ReadMessage(channel: seq<byte>, buf: ByteBuffer, hasExpected: bool, expected: seq<byte>, n: nat)
      returns (result: ReadResult, rest: seq<byte>)
    requires buf.Valid() && buf.data.Length == BUFFER_SIZE
    modifies buf, buf.data
    ensures buf.Valid()
    ensures channel == [] ==> result == EndOfStream && rest == [] && buf.position == 0
    ensures channel != [] ==>
              var k := Delivered(n, channel);
              && rest == channel[k..] && buf.position == k && buf.data[..k] == channel[..k]
              && result == if hasExpected && channel[..k] != expected then CheckFailed else Read(channel[..k])
  {
    buf.Clear();
    rest := channel;
    if channel == [] {
      return EndOfStream, channel;
    }
    var k := Delivered(n, channel);
    var got := channel[..k];
    var fits := buf.Put(got);
    rest := channel[k..];
    // the array is compared up to the expected length only after the lengths agree
    if hasExpected && (k != |expected| || buf.data[..|expected|] != expected) {
      return CheckFailed, rest;
    }
    result := Read(buf.data[..buf.position]);
  }

  // ---------- the two sides themselves ----------

  lemma {:induction false} RunSnoc(s: State, es: seq<Event>, m: State, e: Event)
    requires Run(s, es, m) && Enabled(m, e)
    ensures Run(s, es + [e], Next(m, e))
    decreases es
  {
    hide Next;
    hide Enabled;
    if es == [] {
      assert Run(Next(m, e), [e][1..], Next(m, e));
    } else {
      RunSnoc(Next(s, es[0]), es[1..], m, e);
      assert (es + [e])[1..] == es[1..] + [e];
    }
  }

  // Both ends of one connection, each with a buffer of its own for writing and reading.
  class Connection {
    const message: seq<byte>
    const rounds: nat
    const clientBuf: ByteBuffer
    const serverBuf: ByteBuffer
    var client: ClientPc
    var server: ServerPc
    var failed: bool
    var i: nat
    var serverBytes: seq<byte>
    var toServer: seq<byte>
    var toClient: seq<byte>
    var clientCount: nat
    var serverCount: nat

    ghost function Abs(): State
      reads this
    {
      State(message, rounds, client, server, failed, i, serverBytes, toServer, toClient, clientCount, serverCount)
    }

    ghost predicate Valid()
      reads this, clientBuf, serverBuf
    {
      && clientBuf != serverBuf && clientBuf.data != serverBuf.data
      && clientBuf.Valid() && clientBuf.data.Length == BUFFER_SIZE
      && serverBuf.Valid() && serverBuf.data.Length == BUFFER_SIZE
      && |serverBytes| <= BUFFER_SIZE
    }

    constructor (message: seq<byte>, rounds: nat)
      ensures Valid() && Abs() == Init(message, rounds)
      ensures fresh(clientBuf) && fresh(clientBuf.data) && fresh(serverBuf) && fresh(serverBuf.data)
    {
      this.message, this.rounds := message, rounds;
      clientBuf := new ByteBuffer(BUFFER_SIZE);
      serverBuf := new ByteBuffer(BUFFER_SIZE);
      client, server, failed, i := ClientTop, FirstRead, false, 0;
      serverBytes, toServer, toClient := [], [], [];
      clientCount, serverCount := 0, 0;
    }

    predicate CanStep(side: Side)
      reads this
      ensures forall n: nat :: CanStep(side) == Enabled(Abs(), Event(side, n))
    {
      !failed &&
      match side
      case Client => client.ClientTop? || (client.ClientReading? && (toClient != [] || server.ServerDone?))
      case Server =>
        server.LoopTop?
        || ((server.FirstRead? || server.LoopReading?) && (toServer != [] || client.ClientDone?))
    }

    // One step of roundTripLoop at the client: a stop, a write, or a read of up to n bytes.
    method StepClient(n: nat)
      requires Valid() && Enabled(Abs(), Event(Client, n))
      modifies this, clientBuf, clientBuf.data
      ensures Valid() && Abs() == NextClient(old(Abs()), n)
    {
      hide Delivered;
      if client.ClientReading? {
        var result, rest := ReadMessage(toClient, clientBuf, true, message, n);
        if result.Read? {
          toClient := rest;
          clientCount := clientCount + 1;
          i := i + 1;
          client := ClientTop;
        } else {
          failed := true;
        }
      } else if i >= rounds {
        client := ClientDone;
      } else {
        var ok, sent := Write(toServer, clientBuf, message);
        if ok {
          toServer := sent;
          client := ClientReading;
        } else {
          failed := true;
        }
      }
    }

    // One step of handle: the first read, a write, or a read of up to n bytes.
    method StepServer(n: nat)
      requires Valid() && Enabled(Abs(), Event(Server, n))
      modifies this, serverBuf, serverBuf.data
      ensures Valid() && Abs() == NextServer(old(Abs()), n)
    {
      match server
      case FirstRead =>
        var result, rest := ReadMessage(toServer, serverBuf, false, [], n);
        serverBytes := serverBuf.data[..serverBuf.position];
        toServer := rest;
        server := LoopTop;
      case LoopTop =>
        if serverBytes != [] && client.ClientDone? {
          failed := true;
        } else {
          var ok, sent := Write(toClient, serverBuf, serverBytes);
          toClient := sent;
          server := LoopReading;
        }
      case LoopReading =>
        var result, rest := ReadMessage(toServer, serverBuf, true, serverBytes, n);
        match result
        case EndOfStream => server := ServerDone;
        case CheckFailed => failed := true;
        case Read(_) =>
          toServer := rest;
          serverCount := serverCount + 1;
          server := LoopTop;
    }

    // The whole connection, for every schedule and all sizes of reads: a check throws, or both
    // sides are done with their counts as proved above.
    method RunToEnd(schedule: nat -> Event) returns (ghost es: seq<Event>, ghost j: nat)
      requires Valid() && Abs() == Init(message, rounds)
      requires message != [] && |message| <= BUFFER_SIZE
      modifies this, clientBuf, clientBuf.data, serverBuf, serverBuf.data
      ensures Run(Init(message, rounds), es, Abs()) && Over(Abs())
      ensures !failed ==> clientCount == rounds
      ensures !failed && rounds > 0 ==> IsPower(message, j) && serverCount + 1 == rounds * j
      ensures !failed && !ProperPower(message) ==> serverCount == Recorded(rounds)
    {
      es, j := [], 0;
      var t := 0;
      hide Rank;
      while !failed && !(client.ClientDone? && server.ServerDone?)
        invariant Valid() && Run(Init(message, rounds), es, Abs()) && Counting(Abs())
        decreases Rank(Abs())
      {
        ghost var before := Abs();
        var e := schedule(t);
        NeverStuck(message, rounds, es, before, e.n);
        if !CanStep(e.side) { e := Event(if e.side.Client? then Server else Client, e.n); }
        if e.side.Client? { StepClient(e.n); } else { StepServer(e.n); }
        NextDecreasesRank(before, e);
        RunSnoc(Init(message, rounds), es, before, e);
        es := es + [e];
        t := t + 1;
      }
      if !failed {
        j := PiecesAreRecorded(message, rounds, es, Abs());
        if !ProperPower(message) { ServerCountsOneLess(message, rounds, es, Abs()); }
      }
    }
  }
}
