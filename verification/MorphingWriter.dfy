/**
 MorphingWriter: bytes are collected until the first delimiter, a destination is chosen from
 them, and the whole stream is forwarded to it. A second goroutine reads from a pipe through a
 buffered reader; once it has seen the delimiter it closes the pipe, so that the Write in
 progress fails, and hands over what it has read. From then on Writes go to the destination.

 The writing goroutine and the reading one interleave step by step. The pipe transfers bytes
 only while a Write is waiting in it, as much as the reader's buffer has room for.

 Write first polls readerDone with a two-valued receive. Receiving from a closed channel
 yields false for the second value, so that branch is never taken and every Write goes to
 the pipe first; the model has the branch that is taken.
 */
module MorphingWriter {
  import opened Bytes

  datatype WriterPc =
    | Idle                   // between two Writes
    | InPipe(taken: nat)     // inside pipeWriter.Write, so many bytes taken
    | Refused(taken: nat)    // the pipe is closed: waiting for readerDone
    | CloseWait              // pipeWriter is closed: waiting for readerDone
    | Closed

  datatype ReaderPc = Reading | ClosingPipe | Morphing | CopyingRest | Signalling | Finished

  // full holds the completed fragments of ReadBytes, window the bytes buffered in the reader.
  datatype State = State(
    writes: seq<seq<byte>>, delim: byte, size: nat,
    k: nat, wpc: WriterPc, rpc: ReaderPc,
    full: seq<byte>, window: seq<byte>,
    firstToken: seq<byte>, rest: seq<byte>,
    readerClosed: bool, readerDone: bool,
    morphs: seq<seq<byte>>,
    dest: seq<byte>)

  datatype Event = WriterStep | ReaderStep

  function Init(writes: seq<seq<byte>>, delim: byte, size: nat): State {
    State(writes, delim, size, 0, Idle, Reading, [], [], [], [], false, false, [], [])
  }

  predicate PipeClosedByWriter(s: State) { s.wpc.CloseWait? || s.wpc.Closed? }

  predicate WellFormed(s: State) {
    && s.k <= |s.writes|
    && (s.wpc.InPipe? || s.wpc.Refused? ==> s.k < |s.writes| && s.wpc.taken <= |s.writes[s.k]|)
    && |s.window| <= s.size
  }

  predicate Enabled(s: State, e: Event) {
    match e
    case WriterStep =>
      (match s.wpc
       case Idle => true
       case InPipe(_) => s.readerClosed
       case Refused(_) => s.readerDone
       case CloseWait => s.readerDone
       case Closed => false)
    case ReaderStep =>
      (match s.rpc
       case Reading =>
         FirstIndex(s.window, s.delim) < |s.window| || |s.window| == s.size
         || s.wpc.InPipe? || PipeClosedByWriter(s)
       case Finished => false
       case _ => true)
  }

  function NextWriter(s: State): State
    requires WellFormed(s) && Enabled(s, WriterStep)
  {
    match s.wpc
    case Idle => s.(wpc := if s.k < |s.writes| then InPipe(0) else CloseWait)
    case InPipe(taken) => s.(wpc := Refused(taken))
    // the whole of p is handed over, whatever the pipe has already taken of it
    case Refused(_) => s.(dest := s.dest + s.writes[s.k], k := s.k + 1, wpc := Idle)
    case CloseWait => s.(wpc := Closed)
  }

  // One read from the pipe: as much of the waiting Write as the buffer has room for.
  function Transfer(s: State): State
    requires WellFormed(s) && s.wpc.InPipe?
  {
    var p, taken := s.writes[s.k], s.wpc.taken;
    var room := s.size - |s.window|;
    var n := if |p| - taken <= room then |p| - taken else room;
    var t := s.(window := s.window + p[taken..taken + n]);
    if taken + n == |p| then t.(k := s.k + 1, wpc := Idle) else t.(wpc := InPipe(taken + n))
  }

  function NextReader(s: State): State
    requires WellFormed(s) && Enabled(s, ReaderStep)
  {
    match s.rpc
    case Reading =>
      var i := FirstIndex(s.window, s.delim);
      if i < |s.window| then
        s.(firstToken := s.full + s.window[..i + 1], rest := s.window[i + 1..], rpc := ClosingPipe)
      else if |s.window| == s.size then
        s.(full := s.full + s.window, window := [])
      else if s.wpc.InPipe? then Transfer(s)
      else
        s.(firstToken := s.full + s.window, rest := [], rpc := ClosingPipe)
    case ClosingPipe => s.(readerClosed := true, rpc := Morphing)
    case Morphing => s.(morphs := s.morphs + [s.firstToken], dest := s.dest + s.firstToken, rpc := CopyingRest)
    case CopyingRest => s.(dest := s.dest + s.rest, rpc := Signalling)
    case Signalling => s.(readerDone := true, rpc := Finished)
  }

  function Next(s: State, e: Event): State
    requires WellFormed(s) && Enabled(s, e)
  {
    match e
    case WriterStep => NextWriter(s)
    case ReaderStep => NextReader(s)
  }

  ghost predicate Run(s: State, es: seq<Event>, t: State)
    decreases es
  {
    if es == [] then s == t
    else WellFormed(s) && Enabled(s, es[0]) && Run(Next(s, es[0]), es[1..], t)
  }

  // ---------- what the stream determines before it is written ----------

  // Where write k begins in the concatenation.
  function Offset(writes: seq<seq<byte>>, k: nat): nat
    requires k <= |writes|
  {
    if k == 0 then 0 else Offset(writes, k - 1) + |writes[k - 1]|
  }

  // The prefix through the first delimiter, or the whole stream.
  function FirstToken(data: seq<byte>, delim: byte): seq<byte> {
    var i := FirstIndex(data, delim);
    if i < |data| then data[..i + 1] else data
  }

  lemma FirstTokenIs(data: seq<byte>, delim: byte)
    ensures var token := FirstToken(data, delim);
            if delim in data then token <= data && token != [] && token[|token| - 1] == delim && delim !in token[..|token| - 1]
            else token == data
  {
    var i := FirstIndex(data, delim);
    if i < |data| {
      assert data[..i + 1][..i] == data[..i];
    } else {
      assert data[..i] == data;
    }
  }

  // The end of the Write that holds position pos.
  function EndOfWrite(writes: seq<seq<byte>>, pos: nat): nat {
    if writes == [] then 0
    else if pos < |writes[0]| then |writes[0]|
    else |writes[0]| + EndOfWrite(writes[1..], pos - |writes[0]|)
  }

  // How far the reader reads: to the end of the Write that holds the first delimiter, or of
  // the buffer-sized block that holds it, whichever comes first.
  function StopAt(writes: seq<seq<byte>>, delim: byte, size: nat): nat
    requires size > 0
  {
    var data := Concat(writes);
    var pos := FirstIndex(data, delim);
    if pos == |data| then |data|
    else
      var block, end := (pos / size + 1) * size, EndOfWrite(writes, pos);
      if block <= end then block else end
  }

  // Where the Write that is cut at position r begins; r itself when no Write is cut there.
  function ResumeAt(writes: seq<seq<byte>>, r: nat): nat {
    if writes == [] || r == 0 || r < |writes[0]| then 0
    else |writes[0]| + ResumeAt(writes[1..], r - |writes[0]|)
  }

  // ---------- facts about positions ----------

  lemma {:induction false} OffsetTail(writes: seq<seq<byte>>, k: nat)
    requires 1 <= k <= |writes|
    ensures Offset(writes, k) == |writes[0]| + Offset(writes[1..], k - 1)
  {
    if k > 1 {
      OffsetTail(writes, k - 1);
      assert writes[k - 1] == writes[1..][k - 2];
    }
  }

  lemma {:induction false} WriteIsSlice(writes: seq<seq<byte>>, k: nat)
    requires k < |writes|
    ensures Offset(writes, k + 1) <= |Concat(writes)|
    ensures Concat(writes)[Offset(writes, k)..Offset(writes, k + 1)] == writes[k]
    decreases k
  {
    OffsetTail(writes, k + 1);
    if k > 0 {
      OffsetTail(writes, k);
      WriteIsSlice(writes[1..], k - 1);
      assert writes[1..][k - 1] == writes[k];
    }
  }

  lemma {:induction false} OffsetOfEnd(writes: seq<seq<byte>>)
    ensures Offset(writes, |writes|) == |Concat(writes)|
  {
    if writes != [] {
      OffsetTail(writes, |writes|);
      OffsetOfEnd(writes[1..]);
    }
  }

  lemma {:induction false} EndOfWriteIs(writes: seq<seq<byte>>, k: nat, pos: nat)
    requires k < |writes| && Offset(writes, k) <= pos < Offset(writes, k + 1)
    ensures EndOfWrite(writes, pos) == Offset(writes, k + 1)
    decreases k
  {
    OffsetTail(writes, k + 1);
    if k > 0 {
      OffsetTail(writes, k);
      EndOfWriteIs(writes[1..], k - 1, pos - |writes[0]|);
    }
  }

  lemma {:induction false} ResumeAtIs(writes: seq<seq<byte>>, k: nat, taken: nat)
    requires k <= |writes| && (taken == 0 || (k < |writes| && taken < |writes[k]|))
    ensures ResumeAt(writes, Offset(writes, k) + taken) == Offset(writes, k)
    decreases k
  {
    if k > 0 {
      OffsetTail(writes, k);
      ResumeAtIs(writes[1..], k - 1, taken);
    }
  }

  lemma AtLeastOnce(d: int, size: int)
    requires size >= 0
    ensures d >= 1 ==> d * size >= size
    ensures d <= -1 ==> d * size <= -size
  {
  }

  lemma BlockOf(a: nat, size: nat, pos: nat)
    requires size > 0 && a % size == 0 && a <= pos < a + size
    ensures (pos / size + 1) * size == a + size
  {
    var q, m := pos / size, a / size;
    assert q * size + pos % size == pos && m * size == a;
    assert (q - m) * size == q * size - m * size;
    AtLeastOnce(q - m, size);
    assert (q + 1) * size == q * size + size;
  }

  // ---------- the invariant ----------

  ghost function Data(s: State): seq<byte> { Concat(s.writes) }

  // The bytes taken from the pipe so far by Writes before k and by Write k.
  ghost function Taken(s: State): nat
    requires WellFormed(s)
  {
    Offset(s.writes, s.k) + if s.wpc.InPipe? || s.wpc.Refused? then s.wpc.taken else 0
  }

  // While the reader reads: it holds what was taken, in blocks of the buffer's size, and has
  // not looked beyond the first delimiter.
  ghost predicate InvReading(s: State)
    requires WellFormed(s) && s.size > 0
  {
    && !s.wpc.Refused? && !s.wpc.Closed? && !s.readerClosed && !s.readerDone
    && s.morphs == [] && s.dest == []
    && Taken(s) <= |Data(s)| && s.full + s.window == Data(s)[..Taken(s)]
    && |s.full| % s.size == 0 && s.delim !in s.full
    && (s.wpc.InPipe? ==> s.wpc.taken == 0 || s.wpc.taken < |s.writes[s.k]|)
    && (s.wpc.CloseWait? ==> s.k == |s.writes|)
    && (s.delim in s.window ==> Taken(s) == StopAt(s.writes, s.delim, s.size))
  }

  ghost predicate InvAfter(s: State)
    requires WellFormed(s) && s.size > 0
  {
    var data, r := Data(s), StopAt(s.writes, s.delim, s.size);
    && r <= |data|
    && ResumeAt(s.writes, r) <= Offset(s.writes, s.k) <= |data|
    && s.firstToken == FirstToken(data, s.delim) && s.firstToken + s.rest == data[..r]
    && s.readerClosed == !s.rpc.ClosingPipe?
    && s.readerDone == s.rpc.Finished?
    && s.morphs == (if s.rpc.ClosingPipe? || s.rpc.Morphing? then [] else [s.firstToken])
    && (s.rpc.ClosingPipe? || s.rpc.Morphing? ==> s.dest == [])
    && (s.rpc.CopyingRest? ==> s.dest == s.firstToken)
    && (s.rpc.Signalling? ==> s.dest == data[..r])
    && (!s.rpc.Finished? ==> Offset(s.writes, s.k) == ResumeAt(s.writes, r) && !s.wpc.Closed?)
    && (s.rpc.Finished? ==> s.dest == data[..r] + data[ResumeAt(s.writes, r)..Offset(s.writes, s.k)])
    && (s.wpc.CloseWait? || s.wpc.Closed? ==> s.k == |s.writes|)
  }

  ghost predicate Inv(s: State) {
    WellFormed(s) && s.size > 0 && (if s.rpc.Reading? then InvReading(s) else InvAfter(s))
  }

  // ---------- the writer's steps ----------

  lemma HandOver(s: State)
    requires Inv(s) && s.wpc.Refused? && s.readerDone
    ensures Inv(NextWriter(s))
  {
    WriteIsSlice(s.writes, s.k);
    var data, r := Data(s), StopAt(s.writes, s.delim, s.size);
    hide StopAt;
    hide Concat;
    hide ResumeAt;
    hide FirstToken;
    JoinSlices(data, data[..r], ResumeAt(s.writes, r), Offset(s.writes, s.k), Offset(s.writes, s.k + 1));
  }

  lemma JoinSlices(data: seq<byte>, prefix: seq<byte>, x: nat, a: nat, b: nat)
    requires x <= a <= b <= |data|
    ensures (prefix + data[x..a]) + data[a..b] == prefix + data[x..b]
  {
  }

  lemma WriterKeepsInv(s: State)
    requires Inv(s) && Enabled(s, WriterStep)
    ensures Inv(NextWriter(s))
  {
    hide StopAt;
    hide Concat;
    hide ResumeAt;
    hide Offset;
    hide FirstToken;
    if s.wpc.Refused? {
      HandOver(s);
    }
  }

  // ---------- the reader's steps ----------

  lemma FindsFirst(full: seq<byte>, window: seq<byte>, data: seq<byte>, delim: byte)
    requires |full| + |window| <= |data| && full + window == data[..|full| + |window|] && delim !in full
    ensures FirstIndex(window, delim) < |window| ==> FirstIndex(data, delim) == |full| + FirstIndex(window, delim)
    ensures FirstIndex(window, delim) == |window| ==> FirstIndex(data, delim) >= |full| + |window|
  {
    var i := FirstIndex(window, delim);
    var n := |full| + |window|;
    assert data == data[..n] + data[n..];
    assert data[..n][..|full| + i] == full + window[..i];
    FirstIndexIs(data[..n], delim, |full| + i);
    FirstIndexInPrefix(data[..n], data[n..], delim);
  }

  // How much a transfer takes: up to the end of the Write or of the buffer.
  lemma TransferCounts(s: State)
    requires Inv(s) && s.rpc.Reading? && s.wpc.InPipe?
    ensures var t := Transfer(s);
            && WellFormed(t) && t == s.(window := t.window, k := t.k, wpc := t.wpc)
            && Taken(s) == |s.full| + |s.window| && Taken(t) == |t.full| + |t.window| >= Taken(s)
            && Taken(t) == (if |s.full| + s.size <= Offset(s.writes, s.k + 1) then |s.full| + s.size
                            else Offset(s.writes, s.k + 1))
            && (t.wpc.Idle? || (t.wpc.InPipe? && t.k == s.k && t.wpc.taken < |s.writes[s.k]|))
  {
    assert |s.full + s.window| == Taken(s);
    hide Concat;
    hide StopAt;
  }

  // Appending the next n bytes of the piece p of data at a..b to the bytes before them.
  lemma NextPart(data: seq<byte>, full: seq<byte>, window: seq<byte>, a: nat, b: nat, taken: nat, n: nat)
    requires a <= b <= |data| && taken + n <= b - a
    requires full + window == data[..a + taken]
    ensures full + (window + data[a..b][taken..taken + n]) == data[..a + taken + n]
  {
    var r, part := full + (window + data[a..b][taken..taken + n]), data[a..b];
    assert |full + window| == a + taken;
    forall m | 0 <= m < |r|
      ensures r[m] == data[m]
    {
      if m < |full| + |window| {
        assert r[m] == (full + window)[m];
      } else {
        assert r[m] == part[m - a];
      }
    }
  }

  // What a transfer adds to the window is the next part of the stream.
  lemma TransferTakes(s: State)
    requires Inv(s) && s.rpc.Reading? && s.wpc.InPipe?
    ensures var t := Transfer(s);
            WellFormed(t) && Taken(t) <= |Data(s)| && t.full + t.window == Data(s)[..Taken(t)]
  {
    var t, a, b := Transfer(s), Offset(s.writes, s.k), Offset(s.writes, s.k + 1);
    var taken, n := s.wpc.taken, |t.window| - |s.window|;
    assert t.full == s.full && t.window == s.window + s.writes[s.k][taken..taken + n];
    assert Taken(t) == a + taken + n;
    WriteIsSlice(s.writes, s.k);
    hide Transfer;
    hide Concat;
    hide Offset;
    hide StopAt;
    NextPart(Data(s), s.full, s.window, a, b, taken, n);
  }

  lemma StopsInBlock(writes: seq<seq<byte>>, delim: byte, size: nat, k: nat, a: nat, pos: nat)
    requires size > 0 && k < |writes| && a % size == 0 && a <= pos < a + size
    requires Offset(writes, k) <= pos < Offset(writes, k + 1)
    requires pos == FirstIndex(Concat(writes), delim) < |Concat(writes)|
    ensures StopAt(writes, delim, size)
         == if a + size <= Offset(writes, k + 1) then a + size else Offset(writes, k + 1)
  {
    EndOfWriteIs(writes, k, pos);
    BlockOf(a, size, pos);
    hide Concat;
    hide Offset;
    hide EndOfWrite;
  }

  // Reading on from the window w without a delimiter to the window v with one, up to the end
  // of Write k or of the block: the reader stops there.
  lemma StopsWhenFound(writes: seq<seq<byte>>, delim: byte, size: nat, k: nat,
                       full: seq<byte>, w: seq<byte>, v: seq<byte>)
    requires size > 0 && k < |writes| && |full| % size == 0 && |w| < size && delim !in full
    requires |full| + |w| <= |full| + |v| <= |Concat(writes)|
    requires full + w == Concat(writes)[..|full| + |w|] && full + v == Concat(writes)[..|full| + |v|]
    requires FirstIndex(w, delim) == |w| && delim in v
    requires Offset(writes, k) <= |full| + |w|
    requires |full| + |v| == if |full| + size <= Offset(writes, k + 1) then |full| + size else Offset(writes, k + 1)
    ensures StopAt(writes, delim, size) == |full| + |v|
  {
    var data := Concat(writes);
    hide *;
    FindsFirst(full, w, data, delim);
    FindsFirst(full, v, data, delim);
    assert v[..|v|] == v;
    StopsInBlock(writes, delim, size, k, |full|, FirstIndex(data, delim));
  }

  // If a transfer brings the delimiter, the reader stops there.
  lemma TransferStopsAt(s: State)
    requires Inv(s) && s.rpc.Reading? && s.wpc.InPipe? && s.delim in Transfer(s).window
    requires FirstIndex(s.window, s.delim) == |s.window| < s.size
    ensures Taken(Transfer(s)) == StopAt(s.writes, s.delim, s.size)
  {
    TransferCounts(s);
    TransferTakes(s);
    hide Transfer;
    hide Concat;
    hide StopAt;
    hide FirstIndex;
    StopsWhenFound(s.writes, s.delim, s.size, s.k, s.full, s.window, Transfer(s).window);
  }

  lemma TransferKeepsInv(s: State)
    requires Inv(s) && s.rpc.Reading? && s.wpc.InPipe? && FirstIndex(s.window, s.delim) == |s.window| < s.size
    ensures Inv(Transfer(s))
  {
    TransferCounts(s);
    TransferTakes(s);
    if s.delim in Transfer(s).window { TransferStopsAt(s); }
    hide StopAt;
    hide Concat;
    hide Transfer;
  }

  lemma CutToken(full: seq<byte>, window: seq<byte>, data: seq<byte>, i: nat)
    requires i < |window| && |full| + |window| <= |data| && full + window == data[..|full| + |window|]
    ensures full + window[..i + 1] == data[..|full| + i + 1]
    ensures (full + window[..i + 1]) + window[i + 1..] == full + window
  {
    assert data[..|full| + i + 1] == (full + window)[..|full| + i + 1];
  }

  lemma FoundDelimiter(s: State, i: nat)
    requires Inv(s) && s.rpc.Reading? && i == FirstIndex(s.window, s.delim) < |s.window|
    ensures Inv(NextReader(s))
  {
    var t := NextReader(s);
    assert t == s.(firstToken := s.full + s.window[..i + 1], rest := s.window[i + 1..], rpc := ClosingPipe);
    FoundToken(s, i);
    FoundPosition(s, i);
    hide NextReader;
    hide StopAt;
    hide Concat;
    hide Offset;
    hide ResumeAt;
    hide FirstToken;
    hide FirstIndex;
    hide Taken;
  }

  lemma FoundToken(s: State, i: nat)
    requires Inv(s) && s.rpc.Reading? && i == FirstIndex(s.window, s.delim) < |s.window|
    ensures FirstToken(Data(s), s.delim) == s.full + s.window[..i + 1]
    ensures (s.full + s.window[..i + 1]) + s.window[i + 1..] == Data(s)[..Taken(s)]
  {
    var data := Data(s);
    assert |s.full + s.window| == Taken(s);
    hide StopAt;
    hide Concat;
    hide Offset;
    FindsFirst(s.full, s.window, data, s.delim);
    CutToken(s.full, s.window, data, i);
    hide FirstIndex;
  }

  lemma FoundPosition(s: State, i: nat)
    requires Inv(s) && s.rpc.Reading? && i == FirstIndex(s.window, s.delim) < |s.window|
    ensures StopAt(s.writes, s.delim, s.size) == Taken(s) <= |Data(s)|
    ensures ResumeAt(s.writes, Taken(s)) == Offset(s.writes, s.k) <= |Data(s)|
  {
    assert s.window[i] == s.delim;
    hide StopAt;
    ResumeAtIs(s.writes, s.k, Taken(s) - Offset(s.writes, s.k));
    hide Offset;
    hide Concat;
    hide FirstIndex;
  }

  lemma ReachedEnd(s: State)
    requires Inv(s) && s.rpc.Reading? && FirstIndex(s.window, s.delim) == |s.window| && PipeClosedByWriter(s)
    requires |s.window| < s.size
    ensures Inv(NextReader(s))
  {
    var data := Data(s);
    OffsetOfEnd(s.writes);
    ResumeAtIs(s.writes, s.k, 0);
    assert |s.full + s.window| == Taken(s);
    FindsFirst(s.full, s.window, data, s.delim);
    assert data[..|data|] == data;
    assert s.full + s.window + [] == data;
  }

  lemma FragmentDone(s: State)
    requires Inv(s) && s.rpc.Reading? && FirstIndex(s.window, s.delim) == |s.window| == s.size
    ensures Inv(NextReader(s))
  {
    var t := NextReader(s);
    assert s.window[..|s.window|] == s.window;
    assert t.full + t.window == s.full + s.window;
    OneMoreBlock(|s.full|, s.size);
    hide StopAt;
    hide Concat;
    hide Offset;
  }

  lemma OneMoreBlock(a: nat, size: nat)
    requires size > 0 && a % size == 0
    ensures (a + size) % size == 0
  {
    var q, m := (a + size) / size, a / size;
    assert q * size + (a + size) % size == a + size && m * size == a;
    assert (q - m - 1) * size == q * size - m * size - size;
    AtLeastOnce(q - m - 1, size);
  }

  lemma ReaderKeepsInvReading(s: State)
    requires Inv(s) && s.rpc.Reading? && Enabled(s, ReaderStep)
    ensures Inv(NextReader(s))
  {
    assert |s.window| <= s.size;
    hide Inv;
    hide Transfer;
    if FirstIndex(s.window, s.delim) < |s.window| {
      FoundDelimiter(s, FirstIndex(s.window, s.delim));
    } else if |s.window| == s.size {
      FragmentDone(s);
    } else if s.wpc.InPipe? {
      TransferKeepsInv(s);
    } else {
      ReachedEnd(s);
    }
  }

  lemma ReaderKeepsInvAfter(s: State)
    requires Inv(s) && !s.rpc.Reading? && Enabled(s, ReaderStep)
    ensures Inv(NextReader(s))
  {
    hide StopAt;
    hide Concat;
    hide ResumeAt;
    hide Offset;
    hide FirstToken;
    match s.rpc
    case ClosingPipe =>
    case Morphing =>
    case CopyingRest =>
    case Signalling =>
      var data, r := Data(s), StopAt(s.writes, s.delim, s.size);
      assert data[ResumeAt(s.writes, r)..Offset(s.writes, s.k)] == [];
      assert data[..r] + [] == data[..r];
  }

  lemma NextKeepsInv(s: State, e: Event)
    requires Inv(s) && Enabled(s, e)
    ensures Inv(Next(s, e))
    ensures Next(s, e).writes == s.writes && Next(s, e).delim == s.delim && Next(s, e).size == s.size
  {
    hide Inv;
    hide Transfer;
    InvIsWellFormed(s);
    match e
    case WriterStep => WriterKeepsInv(s);
    case ReaderStep =>
      if s.rpc.Reading? {
        ReaderKeepsInvReading(s);
        TransferKeepsConstants(s);
      } else {
        ReaderKeepsInvAfter(s);
      }
  }

  lemma TransferKeepsConstants(s: State)
    requires WellFormed(s)
    ensures s.wpc.InPipe? ==>
              var t := Transfer(s); t.writes == s.writes && t.delim == s.delim && t.size == s.size
  {
  }

  lemma {:induction false} RunKeepsInv(s: State, es: seq<Event>, t: State)
    requires Inv(s) && Run(s, es, t)
    ensures Inv(t) && t.writes == s.writes && t.delim == s.delim && t.size == s.size
    decreases es
  {
    if es != [] {
      hide Inv;
      hide Next;
      hide Enabled;
      NextKeepsInv(s, es[0]);
      RunKeepsInv(Next(s, es[0]), es[1..], t);
    }
  }

  lemma InitInv(writes: seq<seq<byte>>, delim: byte, size: nat)
    requires size > 0
    ensures Inv(Init(writes, delim, size))
  {
  }

  // ---------- what the destination receives ----------

  // Under every schedule, once Close has returned: the destination was chosen once, from the
  // first token, and holds the bytes the reader took, followed by all Writes from the first
  // one that the pipe did not take whole.
  lemma {:induction false} DestinationHolds(writes: seq<seq<byte>>, delim: byte, size: nat, es: seq<Event>, s: State)
    requires size > 0 && Run(Init(writes, delim, size), es, s) && s.wpc.Closed?
    ensures var data, r := Concat(writes), StopAt(writes, delim, size);
            && ResumeAt(writes, r) <= r <= |data|
            && s.morphs == [FirstToken(data, delim)]
            && s.dest == data[..r] + data[ResumeAt(writes, r)..]
    // that token ends with the first delimiter, or is everything
    ensures var data, token := Concat(writes), s.morphs[0];
            if delim in data then token <= data && token != [] && token[|token| - 1] == delim && delim !in token[..|token| - 1]
            else token == data
  {
    FirstTokenIs(Concat(writes), delim);
    InitInv(writes, delim, size);
    RunKeepsInv(Init(writes, delim, size), es, s);
    OffsetOfEnd(writes);
    ResumeAtMost(writes, StopAt(writes, delim, size));
    var data := Concat(writes);
    assert data[ResumeAt(writes, StopAt(writes, delim, size))..|data|]
        == data[ResumeAt(writes, StopAt(writes, delim, size))..];
  }

  lemma {:induction false} ResumeAtMost(writes: seq<seq<byte>>, r: nat)
    ensures ResumeAt(writes, r) <= r
  {
    if writes != [] && r > 0 && r >= |writes[0]| {
      ResumeAtMost(writes[1..], r - |writes[0]|);
    }
  }

  // The reader's buffer does not fill up between the first delimiter and the end of its Write.
  predicate Uncut(writes: seq<seq<byte>>, delim: byte, size: nat)
    requires size > 0
  {
    var pos := FirstIndex(Concat(writes), delim);
    pos == |Concat(writes)| || EndOfWrite(writes, pos) <= (pos / size + 1) * size
  }

  lemma BlockAbove(pos: nat, size: nat)
    requires size > 0
    ensures (pos / size + 1) * size > pos
  {
    var q := pos / size;
    assert q * size + pos % size == pos;
    assert (q + 1) * size == q * size + size;
  }

  lemma StopsBetweenWritesIff(writes: seq<seq<byte>>, delim: byte, size: nat)
    requires size > 0
    ensures ResumeAt(writes, StopAt(writes, delim, size)) == StopAt(writes, delim, size) <==> Uncut(writes, delim, size)
  {
    var data := Concat(writes);
    var pos := FirstIndex(data, delim);
    OffsetOfEnd(writes);
    hide Concat;
    hide FirstIndex;
    hide ResumeAt;
    if pos == |data| {
      ResumeAtIs(writes, |writes|, 0);
    } else {
      var block := (pos / size + 1) * size;
      var j := WriteHolding(writes, |writes|, pos);
      EndOfWriteIs(writes, j, pos);
      BlockAbove(pos, size);
      hide Offset;
      hide EndOfWrite;
      if Offset(writes, j + 1) <= block {
        ResumeAtIs(writes, j + 1, 0);
      } else {
        CutInside(writes, j, block);
      }
    }
  }

  lemma CutInside(writes: seq<seq<byte>>, j: nat, r: nat)
    requires j < |writes| && Offset(writes, j) < r < Offset(writes, j + 1)
    ensures ResumeAt(writes, r) == Offset(writes, j)
  {
    ResumeAtIs(writes, j, r - Offset(writes, j));
  }

  // The promise of forwarding the same bytes in the same order is kept if and only if the
  // Write with the first delimiter ends before the reader's buffer is full, or no Write has
  // one. Otherwise that Write is handed over a second time from its beginning.
  lemma {:induction false} ForwardsExactlyIff(writes: seq<seq<byte>>, delim: byte, size: nat, es: seq<Event>, s: State)
    requires size > 0 && Run(Init(writes, delim, size), es, s) && s.wpc.Closed?
    ensures s.dest == Concat(writes) <==> Uncut(writes, delim, size)
  {
    DestinationHolds(writes, delim, size, es, s);
    StopsBetweenWritesIff(writes, delim, size);
    hide *;
    Doubled(Concat(writes), ResumeAt(writes, StopAt(writes, delim, size)), StopAt(writes, delim, size));
  }

  lemma Doubled(data: seq<byte>, a: nat, r: nat)
    requires a <= r <= |data|
    ensures data[..r] + data[a..] == data <==> a == r
  {
    assert |data[..r] + data[a..]| == |data| + r - a;
    if a == r {
      assert data[..r] + data[r..] == data;
    }
  }

  // A caller that writes no more than the buffer size before the Write with the first
  // delimiter has ended is safe.
  lemma ShortFirstLineIsSafe(writes: seq<seq<byte>>, delim: byte, size: nat, k: nat)
    requires size > 0 && k <= |writes| && Offset(writes, k) <= size
    requires k == |writes| || FirstIndex(Concat(writes), delim) < Offset(writes, k)
    ensures Uncut(writes, delim, size)
  {
    var data := Concat(writes);
    var pos := FirstIndex(data, delim);
    OffsetOfEnd(writes);
    if pos < |data| {
      var j := WriteHolding(writes, k, pos);
      EndOfWriteIs(writes, j, pos);
      OffsetsIncrease(writes, j + 1, k);
      BlockOf(0, size, pos);
    }
  }

  lemma {:induction false} WriteHolding(writes: seq<seq<byte>>, k: nat, pos: nat) returns (j: nat)
    requires k <= |writes| && pos < Offset(writes, k)
    ensures j < k && Offset(writes, j) <= pos < Offset(writes, j + 1)
  {
    if Offset(writes, k - 1) <= pos {
      j := k - 1;
    } else {
      j := WriteHolding(writes, k - 1, pos);
    }
  }

  lemma {:induction false} OffsetsIncrease(writes: seq<seq<byte>>, j: nat, k: nat)
    requires j <= k <= |writes|
    ensures Offset(writes, j) <= Offset(writes, k)
    decreases k - j
  {
    if j < k { OffsetsIncrease(writes, j, k - 1); }
  }

  // A Write that is longer than the buffer and has the delimiter in its first block is
  // forwarded with its first block doubled.
  lemma {:induction false} LongWriteIsDoubled(p: seq<byte>, delim: byte, size: nat, es: seq<Event>, s: State)
    requires 0 < size < |p| && FirstIndex(p, delim) < size
    requires Run(Init([p], delim, size), es, s) && s.wpc.Closed?
    ensures s.dest == p[..size] + p
  {
    assert Concat([p]) == p + Concat([]) == p;
    BlockOf(0, size, FirstIndex(p, delim));
    DestinationHolds([p], delim, size, es, s);
  }

  // ---------- progress and termination ----------

  // Until Close has returned, some goroutine can take a step.
  lemma {:induction false} NeverStuck(writes: seq<seq<byte>>, delim: byte, size: nat, es: seq<Event>, s: State)
    requires size > 0 && Run(Init(writes, delim, size), es, s)
    ensures s.wpc.Closed? || Enabled(s, WriterStep) || Enabled(s, ReaderStep)
  {
    InitInv(writes, delim, size);
    RunKeepsInv(Init(writes, delim, size), es, s);
  }

  function WriterRank(pc: WriterPc): nat {
    match pc
    case Idle => 3
    case InPipe(_) => 2
    case CloseWait => 1
    case Refused(_) => 1
    case Closed => 0
  }

  function ReaderRank(pc: ReaderPc): nat {
    match pc
    case Reading => 5
    case ClosingPipe => 4
    case Morphing => 3
    case CopyingRest => 2
    case Signalling => 1
    case Finished => 0
  }

  // Bounds the steps still to be taken.
  ghost function Rank(s: State): nat
    requires WellFormed(s)
  {
    4 * (|s.writes| - s.k) + WriterRank(s.wpc) + ReaderRank(s.rpc)
    + (if s.rpc.Reading? && Taken(s) <= |Data(s)| then 2 * (|Data(s)| - Taken(s)) else 0)
    + (if s.rpc.Reading? && |s.window| == s.size then 1 else 0)
  }

  lemma NextDecreasesRank(s: State, e: Event)
    requires Inv(s) && Enabled(s, e)
    ensures WellFormed(Next(s, e)) && Rank(Next(s, e)) < Rank(s)
  {
    NextKeepsInv(s, e);
    hide Concat;
    hide StopAt;
    hide ResumeAt;
    hide FirstToken;
    hide FirstIndex;
    match e
    case WriterStep => WriterDecreasesRank(s);
    case ReaderStep =>
      if NextReader(s).rpc.Reading? && s.wpc.InPipe? && |s.window| < s.size {
        TransferDecreasesRank(s);
      } else {
        ReaderDecreasesRank(s);
      }
  }

  lemma WriterDecreasesRank(s: State)
    requires Inv(s) && Enabled(s, WriterStep) && WellFormed(NextWriter(s))
    ensures Rank(NextWriter(s)) < Rank(s)
  {
    hide StopAt;
    hide ResumeAt;
    hide FirstToken;
    hide Concat;
    if s.rpc.Reading? {
      assert !s.wpc.Refused? && !s.readerClosed && !s.readerDone;
      assert Taken(NextWriter(s)) == Taken(s);
    }
    hide Taken;
  }

  lemma ReaderDecreasesRank(s: State)
    requires Inv(s) && Enabled(s, ReaderStep) && WellFormed(NextReader(s))
    requires !(NextReader(s).rpc.Reading? && s.wpc.InPipe? && |s.window| < s.size)
    ensures Rank(NextReader(s)) < Rank(s)
  {
    assert Taken(NextReader(s)) == Taken(s);
    hide StopAt;
    hide ResumeAt;
    hide FirstToken;
    hide Concat;
    hide Taken;
  }

  lemma TransferDecreasesRank(s: State)
    requires Inv(s) && s.rpc.Reading? && s.wpc.InPipe? && |s.window| < s.size
    requires FirstIndex(s.window, s.delim) == |s.window|
    ensures WellFormed(Transfer(s)) && Rank(Transfer(s)) < Rank(s)
  {
    TransferCounts(s);
    TransferTakes(s);
    var t := Transfer(s);
    assert !t.wpc.Idle? ==> Taken(t) < Offset(s.writes, s.k + 1);
    TransferEnds(s);
    hide Transfer;
    hide Concat;
    hide StopAt;
    hide Offset;
    hide FirstIndex;
  }

  // A transfer that leaves the Write idle has completed it.
  lemma TransferEnds(s: State)
    requires WellFormed(s) && s.wpc.InPipe?
    ensures Transfer(s).wpc.Idle? ==> Transfer(s).k == s.k + 1
  {
  }

  // Every schedule is finite: no run has more steps than the rank of the state it starts in.
  lemma {:induction false} TerminationBound(s: State, es: seq<Event>, t: State)
    requires Inv(s) && Run(s, es, t)
    ensures Inv(t) && |es| + Rank(t) <= Rank(s)
    decreases es
  {
    if es != [] {
      hide Inv;
      hide Next;
      hide Enabled;
      hide Rank;
      NextKeepsInv(s, es[0]);
      NextDecreasesRank(s, es[0]);
      TerminationBound(Next(s, es[0]), es[1..], t);
    }
  }

  lemma {:induction false} RunSnoc(s: State, es: seq<Event>, m: State, e: Event)
    requires Run(s, es, m) && WellFormed(m) && Enabled(m, e)
    ensures Run(s, es + [e], Next(m, e))
    decreases es
  {
    hide Next;
    hide Enabled;
    hide WellFormed;
    if es == [] {
      assert [e][1..] == [];
      assert Run(Next(m, e), [e][1..], Next(m, e));
    } else {
      RunSnoc(Next(s, es[0]), es[1..], m, e);
      assert (es + [e])[1..] == es[1..] + [e];
    }
  }

  // ---------- the writer itself ----------

  class MorphingWriter {
    const writes: seq<seq<byte>>
    const delim: byte
    const size: nat
    var k: nat
    var wpc: WriterPc
    var rpc: ReaderPc
    var full: seq<byte>
    var window: seq<byte>
    var firstToken: seq<byte>
    var rest: seq<byte>
    var readerClosed: bool
    var readerDone: bool
    var morphs: seq<seq<byte>>
    var dest: seq<byte>

    ghost function Abs(): State
      reads this
    {
      State(writes, delim, size, k, wpc, rpc, full, window, firstToken, rest,
            readerClosed, readerDone, morphs, dest)
    }

    constructor (writes: seq<seq<byte>>, delim: byte, size: nat)
      ensures Abs() == Init(writes, delim, size)
    {
      this.writes, this.delim, this.size := writes, delim, size;
      k, wpc, rpc := 0, Idle, Reading;
      full, window, firstToken, rest := [], [], [], [];
      readerClosed, readerDone := false, false;
      morphs, dest := [], [];
    }

    predicate CanStep(e: Event)
      reads this
      ensures CanStep(e) == Enabled(Abs(), e)
    {
      match e
      case WriterStep =>
        wpc.Idle? || (wpc.InPipe? && readerClosed) || ((wpc.Refused? || wpc.CloseWait?) && readerDone)
      case ReaderStep =>
        if rpc.Reading? then
          FirstIndex(window, delim) < |window| || |window| == size
          || wpc.InPipe? || wpc.CloseWait? || wpc.Closed?
        else !rpc.Finished?
    }

    // The writing goroutine: the caller's loop over Write, and Close.
    method TakeWriterStep()
      requires WellFormed(Abs()) && Enabled(Abs(), WriterStep)
      modifies this`k, this`wpc, this`dest
      ensures Abs() == NextWriter(old(Abs()))
    {
      match wpc
      case Idle => wpc := if k < |writes| then InPipe(0) else CloseWait;
      case InPipe(taken) => wpc := Refused(taken);
      case Refused(taken) =>
        dest := dest + writes[k];
        k := k + 1;
        wpc := Idle;
      case CloseWait => wpc := Closed;
    }

    // One read of the buffered reader from the waiting Write.
    method ReadFromPipe()
      requires WellFormed(Abs()) && wpc.InPipe?
      modifies this`window, this`k, this`wpc
      ensures Abs() == Transfer(old(Abs()))
    {
      var p, taken := writes[k], wpc.taken;
      var n := if |p| - taken <= size - |window| then |p| - taken else size - |window|;
      window := window + p[taken..taken + n];
      if taken + n == |p| {
        k := k + 1;
        wpc := Idle;
      } else {
        wpc := InPipe(taken + n);
      }
    }

    // The reading goroutine.
    method TakeReaderStep()
      requires WellFormed(Abs()) && Enabled(Abs(), ReaderStep)
      modifies this
      ensures Abs() == NextReader(old(Abs()))
    {
      match rpc
      case Reading =>
        var i := FirstIndex(window, delim);
        if i < |window| {
          firstToken := full + window[..i + 1];
          rest := window[i + 1..];
          rpc := ClosingPipe;
        } else if |window| == size {
          full := full + window;
          window := [];
        } else if wpc.InPipe? {
          ReadFromPipe();
        } else {
          firstToken := full + window;
          rest := [];
          rpc := ClosingPipe;
        }
      case ClosingPipe =>
        readerClosed := true;
        rpc := Morphing;
      case Morphing =>
        morphs := morphs + [firstToken];
        dest := dest + firstToken;
        rpc := CopyingRest;
      case CopyingRest =>
        dest := dest + rest;
        rpc := Signalling;
      case Signalling =>
        readerDone := true;
        rpc := Finished;
    }

    // All Writes and Close, at every schedule: at time n goroutine schedule(n) runs if it can,
    // else the other one.
    method WriteAllAndClose(schedule: nat -> Event) returns (ghost es: seq<Event>)
      requires Abs() == Init(writes, delim, size) && size > 0
      modifies this
      ensures wpc.Closed? && Run(Init(writes, delim, size), es, Abs())
      ensures morphs == [FirstToken(Concat(writes), delim)]
      ensures var data, r := Concat(writes), StopAt(writes, delim, size);
              ResumeAt(writes, r) <= r <= |data| && dest == data[..r] + data[ResumeAt(writes, r)..]
      ensures dest == Concat(writes) <==> Uncut(writes, delim, size)
    {
      es := [];
      var n := 0;
      InitInv(writes, delim, size);
      hide Inv;
      hide Rank;
      while !wpc.Closed?
        invariant Run(Init(writes, delim, size), es, Abs()) && Inv(Abs()) && WellFormed(Abs())
        decreases Rank(Abs())
      {
        ghost var before := Abs();
        NeverStuck(writes, delim, size, es, before);
        var e := schedule(n);
        if !CanStep(e) { e := if e.WriterStep? then ReaderStep else WriterStep; }
        if e.WriterStep? { TakeWriterStep(); } else { TakeReaderStep(); }
        NextKeepsInv(before, e);
        InvIsWellFormed(Abs());
        NextDecreasesRank(before, e);
        RunSnoc(Init(writes, delim, size), es, before, e);
        es := es + [e];
        n := n + 1;
      }
      DestinationHolds(writes, delim, size, es, Abs());
      ForwardsExactlyIff(writes, delim, size, es, Abs());
    }
  }

  lemma InvIsWellFormed(s: State)
    requires Inv(s)
    ensures WellFormed(s) && s.size > 0
  {
  }
}
