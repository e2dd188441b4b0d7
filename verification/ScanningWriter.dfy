/**
 ScanningWriter: bytes arriving in arbitrary Writes are re-cut into lines, and each line is
 written downstream in one Write together with a delimiter.

 The line is a slice of the scanner's buffer, and the delimiter is appended to that slice, so
 it is stored into the buffer itself whenever there is room behind the line. The buffer is
 compacted and grown as bufio.Scanner does; the reader takes from the pipe what fits.
 */
module ScanningWriter {
  import opened Bytes

  const START_BUF_SIZE: nat := 4096
  const MAX_TOKEN_SIZE: nat := 65536

  // ---------- the batch form: splitting a complete input ----------

  // Position of the first line feed, or |data|.
  function FirstLF(data: seq<byte>): (i: nat)
    ensures i <= |data| && LF !in data[..i]
    ensures i < |data| ==> data[i] == LF
  {
    FirstIndex(data, LF)
  }

  function DropCR(line: seq<byte>): seq<byte> {
    if |line| > 0 && line[|line| - 1] == CR then line[..|line| - 1] else line
  }

  // The lines of data without their line ends, up to the first line that does not fit the
  // scanner; an unterminated last line counts unless it is empty.
  function Lines(data: seq<byte>): seq<seq<byte>>
    decreases |data|
  {
    var i := FirstLF(data);
    if data == [] || i >= MAX_TOKEN_SIZE then []
    else if i < |data| then [DropCR(data[..i])] + Lines(data[i + 1..])
    else [DropCR(data)]
  }

  // Some line has MAX_TOKEN_SIZE bytes or more.
  predicate HasLongLine(data: seq<byte>)
    decreases |data|
  {
    var i := FirstLF(data);
    i >= MAX_TOKEN_SIZE || (i < |data| && HasLongLine(data[i + 1..]))
  }

  function WithDelimiter(lines: seq<seq<byte>>, delimiter: seq<byte>): (ws: seq<seq<byte>>)
    ensures |ws| == |lines| && forall k :: 0 <= k < |lines| ==> ws[k] == lines[k] + delimiter
  {
    seq(|lines|, k requires 0 <= k < |lines| => lines[k] + delimiter)
  }

  // ---------- the scanner's state ----------

  // buf[start..end] is read from the pipe and not yet scanned; pipe holds the Writes not yet
  // taken (of the first one, what is left); eof is set once the pipe is drained and closed.
  datatype State = State(
    buf: seq<byte>, start: nat, end: nat,
    eof: bool,
    pipe: seq<seq<byte>>,
    delimiter: seq<byte>,
    downstream: seq<seq<byte>>)

  ghost predicate Valid(s: State) {
    && s.start <= s.end <= |s.buf| <= MAX_TOKEN_SIZE
    && (s.eof ==> s.pipe == [] && s.end < |s.buf|)
  }

  // The bytes read and not yet scanned, and the first ones of them.
  function Data(s: State): (d: seq<byte>)
    requires s.start <= s.end <= |s.buf|
    ensures |d| == s.end - s.start
  {
    s.buf[s.start..s.end]
  }

  function Token(s: State, length: nat): seq<byte>
    requires s.start + length <= |s.buf|
  {
    s.buf[s.start..s.start + length]
  }

  ghost function Unread(s: State): seq<byte>
    requires Valid(s)
  {
    Data(s) + Concat(s.pipe)
  }

  function Init(writes: seq<seq<byte>>, delimiter: seq<byte>): State {
    State([], 0, 0, false, writes, delimiter, [])
  }

  // append(slice, d...) for a slice that ends at position `at` of buf: in place if d fits.
  function Append(buf: seq<byte>, at: nat, d: seq<byte>): (r: seq<byte>)
    requires at <= |buf|
    ensures |r| == |buf|
  {
    if at + |d| <= |buf| then buf[..at] + d + buf[at + |d|..] else buf
  }

  // One token of the given length is written downstream; `advance` bytes are consumed.
  function Emit(s: State, length: nat, advance: nat): State
    requires s.start + length <= s.start + advance <= s.end <= |s.buf|
  {
    s.(buf := Append(s.buf, s.start + length, s.delimiter),
       start := s.start + advance,
       downstream := s.downstream + [Token(s, length) + s.delimiter])
  }

  function NeedsShift(s: State): bool {
    s.start > 0 && (s.end == |s.buf| || s.start > |s.buf| / 2)
  }

  function Shift(s: State): (t: State)
    requires s.start <= s.end <= |s.buf|
    ensures t.start <= t.end <= |t.buf| == |s.buf| && t.end - t.start == s.end - s.start
    ensures t.end == |t.buf| ==> t.start == 0
  {
    if NeedsShift(s) then Moved(s) else s
  }

  function Moved(s: State): (t: State)
    requires s.start <= s.end <= |s.buf|
    ensures t == s.(buf := t.buf, start := 0, end := s.end - s.start) && |t.buf| == |s.buf|
  {
    s.(buf := Data(s) + s.buf[s.end - s.start..], start := 0, end := s.end - s.start)
  }

  function NewSize(size: nat): (n: nat)
    ensures n <= MAX_TOKEN_SIZE && (size < MAX_TOKEN_SIZE ==> size < n)
  {
    var doubled := if size == 0 then START_BUF_SIZE else 2 * size;
    if doubled < MAX_TOKEN_SIZE then doubled else MAX_TOKEN_SIZE
  }

  function Zeros(n: nat): (z: seq<byte>)
    ensures |z| == n
  {
    seq(n, _ => 0 as byte)
  }

  function Grow(s: State): (t: State)
    requires s.start <= s.end == |s.buf| < MAX_TOKEN_SIZE
    ensures t.start == 0 && t.end == s.end - s.start < |t.buf| <= MAX_TOKEN_SIZE
  {
    var data := s.buf[s.start..s.end];
    s.(buf := data + Zeros(NewSize(|s.buf|) - |data|), start := 0, end := |data|)
  }

  // One read from the pipe: as much of the first nonempty Write as fits, or end of file.
  function Fill(s: State): State
    requires s.end < |s.buf|
    decreases |s.pipe|
  {
    if s.pipe == [] then s.(eof := true)
    else if s.pipe[0] == [] then Fill(s.(pipe := s.pipe[1..]))
    else
      var n := Fitting(s, s.pipe[0]);
      Took(s, s.pipe[0]).(pipe := (if n == |s.pipe[0]| then [] else [s.pipe[0][n..]]) + s.pipe[1..])
  }

  // As many bytes of p as fit behind the unscanned ones.
  function Fitting(s: State, p: seq<byte>): (n: nat)
    requires s.end <= |s.buf|
    ensures n <= |p| && s.end + n <= |s.buf|
  {
    if |p| <= |s.buf| - s.end then |p| else |s.buf| - s.end
  }

  function Took(s: State, p: seq<byte>): (t: State)
    requires s.end <= |s.buf|
    ensures t == s.(buf := t.buf, end := s.end + Fitting(s, p)) && |t.buf| == |s.buf|
  {
    var n := Fitting(s, p);
    s.(buf := s.buf[..s.end] + p[..n] + s.buf[s.end + n..], end := s.end + n)
  }

  // ---------- the scanning loop ----------

  datatype Outcome = Outcome(downstream: seq<seq<byte>>, tooLong: bool)

  ghost function PipeSize(pipe: seq<seq<byte>>): nat {
    if pipe == [] then 0 else |pipe[0]| + 1 + PipeSize(pipe[1..])
  }

  ghost function Left(s: State): nat
    requires s.start <= s.end
  {
    s.end - s.start + 2 * PipeSize(s.pipe) + if s.eof then 0 else 1
  }

  // Makes room for a read.
  function Room(s: State): (t: State)
    requires s.start <= s.end <= |s.buf| <= MAX_TOKEN_SIZE
    requires !(Shift(s).end == |s.buf| == MAX_TOKEN_SIZE)
    ensures t.start <= t.end < |t.buf| <= MAX_TOKEN_SIZE
    ensures t.eof == s.eof && t.pipe == s.pipe && t.end - t.start == s.end - s.start
  {
    var t := Shift(s);
    if t.end == |t.buf| then Grow(t) else t
  }

  datatype Status = Stop(outcome: Outcome) | Continue(next: State)

  // One round of the loop: write a line if one is complete or the input has ended, or else
  // read; stop at the end, or when a full buffer of the largest size holds no line end.
  function Next(s: State): (r: Status)
    requires s.start <= s.end <= |s.buf| <= MAX_TOKEN_SIZE
    ensures r.Continue? ==> r.next.start <= r.next.end <= |r.next.buf| <= MAX_TOKEN_SIZE && Left(r.next) < Left(s)
  {
    var i := FirstLF(Data(s));
    if i < |Data(s)| then
      Continue(Emit(s, |DropCR(Data(s)[..i])|, i + 1))
    else if s.eof && Data(s) != [] then
      Continue(Emit(s, |DropCR(Data(s))|, |Data(s)|))
    else if s.eof then
      Stop(Outcome(s.downstream, false))
    else if Shift(s).end == |s.buf| == MAX_TOKEN_SIZE then
      Stop(Outcome(s.downstream, true))
    else
      FillTakes(Room(s));
      Continue(Fill(Room(s)))
  }

  // The reader goroutine, until the scanner stops.
  function Loop(s: State): Outcome
    requires s.start <= s.end <= |s.buf| <= MAX_TOKEN_SIZE
    decreases Left(s)
  {
    match Next(s)
    case Stop(outcome) => outcome
    case Continue(next) => Loop(next)
  }

  lemma {:induction false} FillTakes(s: State)
    requires s.start <= s.end < |s.buf| && !s.eof
    ensures var t := Fill(s); t.start == s.start && t.start <= t.end <= |t.buf| == |s.buf| && Left(t) < Left(s)
    decreases |s.pipe|
  {
    if s.pipe != [] && s.pipe[0] == [] {
      FillTakes(s.(pipe := s.pipe[1..]));
    } else if s.pipe != [] {
      var rest := Fill(s).pipe;
      if |rest| == |s.pipe| {
        assert rest[1..] == s.pipe[1..];
      } else {
        assert rest == s.pipe[1..];
      }
    }
  }

  // ---------- what the steps keep ----------

  // The bytes behind a line survive the appended delimiter.
  lemma AppendKeepsUnread(buf: seq<byte>, at: nat, d: seq<byte>, from: nat, to: nat)
    requires at <= from <= to <= |buf|
    requires |d| <= from - at || at + |d| > |buf|
    ensures Append(buf, at, d)[from..to] == buf[from..to]
  {
  }

  // Exactly when appending in place leaves the unread bytes buf[from..to] alone: the delimiter
  // ends before them, or does not fit and is put elsewhere, or happens to repeat them.
  lemma AppendHarmlessIff(buf: seq<byte>, at: nat, d: seq<byte>, from: nat, to: nat)
    requires at <= from <= to <= |buf|
    ensures Append(buf, at, d)[from..to] == buf[from..to]
       <==> || |d| <= from - at
            || at + |d| > |buf|
            || forall k :: from <= k < to && k < at + |d| ==> buf[k] == d[k - at]
  {
    var r := Append(buf, at, d);
    if at + |d| <= |buf| {
      assert forall k :: at <= k < at + |d| ==> r[k] == d[k - at];
      assert forall k :: at + |d| <= k < |buf| ==> r[k] == buf[k];
      if r[from..to] == buf[from..to] {
        forall k | from <= k < to && k < at + |d|
          ensures buf[k] == d[k - at]
        {
          assert r[from..to][k - from] == r[k] && buf[from..to][k - from] == buf[k];
        }
      }
    }
  }

  predicate Harmless(delimiter: seq<byte>) {
    |delimiter| <= 1 || |delimiter| > MAX_TOKEN_SIZE
  }

  lemma EmitKeepsUnread(s: State, length: nat, advance: nat)
    requires Valid(s) && Harmless(s.delimiter)
    requires length < advance <= s.end - s.start || (length <= advance == s.end - s.start)
    ensures Valid(Emit(s, length, advance))
    ensures Unread(Emit(s, length, advance)) == Unread(s)[advance..]
    ensures Emit(s, length, advance).delimiter == s.delimiter
    ensures Emit(s, length, advance).downstream
         == s.downstream + [Token(s, length) + s.delimiter]
  {
    var t := Emit(s, length, advance);
    if length < advance {
      AppendKeepsUnread(s.buf, s.start + length, s.delimiter, s.start + advance, s.end);
    }
    assert t.buf[t.start..t.end] == s.buf[s.start + advance..s.end];
    assert Unread(s)[advance..] == s.buf[s.start..s.end][advance..] + Concat(s.pipe);
    assert s.buf[s.start..s.end][advance..] == s.buf[s.start + advance..s.end];
  }

  lemma ShiftKeepsUnread(s: State)
    requires Valid(s)
    ensures Valid(Shift(s)) && Unread(Shift(s)) == Unread(s)
    ensures Shift(s).end == |s.buf| ==> Shift(s).start == 0
  {
    assert NeedsShift(s) ==> Shift(s).buf[..s.end - s.start] == s.buf[s.start..s.end];
  }

  lemma GrowKeepsUnread(s: State)
    requires Valid(s) && s.end == |s.buf| < MAX_TOKEN_SIZE && !s.eof
    ensures Valid(Grow(s)) && Unread(Grow(s)) == Unread(s)
    ensures Grow(s).end < |Grow(s).buf| && !Grow(s).eof
  {
    assert NewSize(|s.buf|) > |s.buf|;
    hide NewSize;
    var data, t := s.buf[s.start..s.end], Grow(s);
    assert t.buf[..|data|] == data;
    hide Concat;
  }

  lemma TookAppends(s: State, p: seq<byte>)
    requires s.start <= s.end <= |s.buf|
    ensures Data(Took(s, p)) == Data(s) + p[..Fitting(s, p)]
  {
  }

  lemma {:induction false} FillKeepsUnread(s: State)
    requires Valid(s) && s.end < |s.buf|
    ensures Valid(Fill(s)) && Unread(Fill(s)) == Unread(s)
    decreases |s.pipe|
  {
    if s.pipe != [] && s.pipe[0] == [] {
      FillKeepsUnread(s.(pipe := s.pipe[1..]));
    } else if s.pipe != [] {
      var t, n := Fill(s), Fitting(s, s.pipe[0]);
      TookAppends(s, s.pipe[0]);
      hide Took;
      assert Data(t) == Data(s) + s.pipe[0][..n];
      hide Data;
      RestOfPipe(s.pipe, n, t.pipe);
    }
  }

  lemma RestOfPipe(pipe: seq<seq<byte>>, n: nat, rest: seq<seq<byte>>)
    requires pipe != [] && n <= |pipe[0]|
    requires rest == (if n == |pipe[0]| then [] else [pipe[0][n..]]) + pipe[1..]
    ensures pipe[0][..n] + Concat(rest) == Concat(pipe)
  {
    if n == |pipe[0]| {
      assert rest == pipe[1..];
    } else {
      assert rest[1..] == pipe[1..];
      assert pipe[0][..n] + pipe[0][n..] == pipe[0];
    }
  }

  // ---------- the loop against the batch form ----------

  lemma PrependLine(line: seq<byte>, lines: seq<seq<byte>>, d: seq<byte>, ws: seq<seq<byte>>)
    ensures ws + [line + d] + WithDelimiter(lines, d) == ws + WithDelimiter([line] + lines, d)
  {
  }

  // What is still to be written, and whether it will all be.
  ghost function Pending(s: State): seq<seq<byte>>
    requires Valid(s)
  {
    s.downstream + WithDelimiter(Lines(Unread(s)), s.delimiter)
  }

  // A line end within the first bytes cuts off the first line.
  lemma LinesOfPrefix(data: seq<byte>, rest: seq<byte>)
    requires FirstLF(data) < |data| <= MAX_TOKEN_SIZE
    ensures var i := FirstLF(data);
            && Lines(data + rest) == [DropCR(data[..i])] + Lines((data + rest)[i + 1..])
            && HasLongLine(data + rest) == HasLongLine((data + rest)[i + 1..])
  {
    FirstIndexInPrefix(data, rest, LF);
    assert (data + rest)[..FirstLF(data)] == data[..FirstLF(data)];
  }

  // Writing the first pending line leaves the rest pending.
  lemma PendingAfterLine(s: State, t: State, line: seq<byte>)
    requires Valid(s) && Valid(t) && t.delimiter == s.delimiter
    requires t.downstream == s.downstream + [line + s.delimiter]
    requires Lines(Unread(s)) == [line] + Lines(Unread(t))
    ensures Pending(t) == Pending(s)
  {
    PrependLine(line, Lines(Unread(t)), s.delimiter, s.downstream);
  }

  // A line is a slice of the buffer, and a dropped carriage return shortens the slice.
  lemma LineIsToken(s: State, i: nat)
    requires s.start <= s.end <= |s.buf| && i <= |Data(s)|
    ensures |DropCR(Data(s)[..i])| <= i && Token(s, |DropCR(Data(s)[..i])|) == DropCR(Data(s)[..i])
  {
    var whole := Data(s)[..i];
    assert whole == Token(s, i);
    assert Token(s, i)[..|DropCR(whole)|] == Token(s, |DropCR(whole)|);
  }

  // Nothing still to be written is lost or added from s to t.
  ghost predicate SamePending(s: State, t: State)
    requires Valid(s)
  {
    Valid(t) && t.delimiter == s.delimiter && Pending(t) == Pending(s)
    && HasLongLine(Unread(t)) == HasLongLine(Unread(s))
  }

  lemma LineStep(s: State, i: nat, line: seq<byte>, t: State)
    requires Valid(s) && Harmless(s.delimiter)
    requires i == FirstLF(Data(s)) < |Data(s)| && line == DropCR(Data(s)[..i])
    requires |line| <= i && Token(s, |line|) == line && t == Emit(s, |line|, i + 1)
    ensures SamePending(s, t)
  {
    hide *;
    EmitKeepsUnread(s, |line|, i + 1);
    FirstPendingLine(s, i, line);
    PendingAfterLine(s, t, line);
    IsSamePending(s, t);
  }

  lemma FirstPendingLine(s: State, i: nat, line: seq<byte>)
    requires Valid(s) && i == FirstLF(Data(s)) < |Data(s)| && line == DropCR(Data(s)[..i])
    ensures i + 1 <= |Unread(s)| && i + 1 <= s.end - s.start
    ensures Lines(Unread(s)) == [line] + Lines(Unread(s)[i + 1..])
    ensures HasLongLine(Unread(s)) == HasLongLine(Unread(s)[i + 1..])
  {
    LinesOfPrefix(Data(s), Concat(s.pipe));
    hide Lines;
    hide HasLongLine;
    hide DropCR;
    hide FirstLF;
    hide Concat;
  }

  lemma IsSamePending(s: State, t: State)
    requires Valid(s) && Valid(t) && t.delimiter == s.delimiter && Pending(t) == Pending(s)
    requires HasLongLine(Unread(t)) == HasLongLine(Unread(s))
    ensures SamePending(s, t)
  {
  }

  lemma LastLineStep(s: State, line: seq<byte>, t: State)
    requires Valid(s) && Harmless(s.delimiter) && s.eof && Data(s) != []
    requires FirstLF(Data(s)) == |Data(s)| && line == DropCR(Data(s))
    requires |line| <= |Data(s)| && Token(s, |line|) == line && t == Emit(s, |line|, |Data(s)|)
    ensures SamePending(s, t)
  {
    hide Data;
    hide Token;
    assert Unread(s) == Data(s);
    assert Lines(Data(s)) == [line] && !HasLongLine(Data(s));
    assert Lines([]) == [] && !HasLongLine([]);
    hide DropCR;
    hide Lines;
    hide HasLongLine;
    EmitKeepsUnread(s, |line|, |Data(s)|);
    assert Unread(s)[|Data(s)|..] == [];
    hide Emit;
    PendingAfterLine(s, t, line);
  }

  lemma StopStep(s: State)
    requires Valid(s) && FirstLF(Data(s)) == |Data(s)|
    ensures s.eof && s.start == s.end ==> Pending(s) == s.downstream && !HasLongLine(Unread(s))
    ensures s.end - s.start == MAX_TOKEN_SIZE ==> Pending(s) == s.downstream && HasLongLine(Unread(s))
  {
    FirstIndexInPrefix(Data(s), Concat(s.pipe), LF);
    if s.eof && s.start == s.end {
      assert Unread(s) == [];
    }
  }

  lemma RoomStep(s: State)
    requires Valid(s) && !s.eof && !(Shift(s).end == |s.buf| == MAX_TOKEN_SIZE)
    ensures var t := Room(s);
            && Valid(t) && t.end < |t.buf| && !t.eof
            && Unread(t) == Unread(s) && t.downstream == s.downstream && t.delimiter == s.delimiter
            && Left(t) == Left(s)
  {
    ShiftKeepsUnread(s);
    if Shift(s).end == |s.buf| { GrowKeepsUnread(Shift(s)); }
  }

  // One round of the loop keeps what is still to be written.
  lemma NextKeepsPending(s: State)
    requires Valid(s) && Harmless(s.delimiter)
    ensures Next(s).Continue? ==> SamePending(s, Next(s).next)
    ensures Next(s).Stop? ==> Next(s).outcome == Outcome(Pending(s), HasLongLine(Unread(s)))
  {
    hide SamePending;
    hide Pending;
    hide HasLongLine;
    hide Emit;
    hide DropCR;
    hide Data;
    hide Token;
    var i := FirstLF(Data(s));
    if i < |Data(s)| {
      LineIsToken(s, i);
      LineStep(s, i, DropCR(Data(s)[..i]), Next(s).next);
    } else if s.eof && Data(s) != [] {
      LineIsToken(s, i);
      assert Data(s)[..i] == Data(s);
      LastLineStep(s, DropCR(Data(s)), Next(s).next);
    } else if s.eof || Shift(s).end == |s.buf| == MAX_TOKEN_SIZE {
      StopStep(s);
    } else {
      ReadStep(s, Next(s).next);
    }
  }

  lemma ReadStep(s: State, t: State)
    requires Valid(s) && !s.eof && !(Shift(s).end == |s.buf| == MAX_TOKEN_SIZE) && t == Fill(Room(s))
    ensures SamePending(s, t)
  {
    RoomStep(s);
    FillKeepsUnread(Room(s));
    FillKeepsRest(Room(s));
  }

  // From any state, the loop writes downstream exactly the lines still to come, and stops
  // early exactly when one of them is too long.
  lemma {:induction false} LoopIsBatch(s: State)
    requires Valid(s) && Harmless(s.delimiter)
    ensures Loop(s) == Outcome(Pending(s), HasLongLine(Unread(s)))
    decreases Left(s)
  {
    hide Next;
    hide HasLongLine;
    hide Pending;
    NextKeepsPending(s);
    if Next(s).Continue? {
      LoopIsBatch(Next(s).next);
    }
  }

  lemma {:induction false} FillKeepsRest(s: State)
    requires s.end < |s.buf|
    ensures Fill(s).downstream == s.downstream && Fill(s).delimiter == s.delimiter
    decreases |s.pipe|
  {
    if s.pipe != [] && s.pipe[0] == [] {
      FillKeepsRest(s.(pipe := s.pipe[1..]));
    }
  }

  // For every way of cutting the input into Writes: downstream receives the batch split of
  // the concatenation, one Write per line, each followed by the delimiter.
  lemma {:induction false} LinesAreRechunked(writes: seq<seq<byte>>, delimiter: seq<byte>)
    requires Harmless(delimiter)
    ensures Loop(Init(writes, delimiter)).downstream == WithDelimiter(Lines(Concat(writes)), delimiter)
    ensures Loop(Init(writes, delimiter)).tooLong == HasLongLine(Concat(writes))
  {
    LoopIsBatch(Init(writes, delimiter));
    assert Unread(Init(writes, delimiter)) == Concat(writes);
  }

  // ---------- a writer that is never closed ----------

  // The lines that a line feed ends, up to the first one that does not fit.
  function CompleteLines(data: seq<byte>): seq<seq<byte>>
    decreases |data|
  {
    var i := FirstLF(data);
    if i == |data| || i >= MAX_TOKEN_SIZE then [] else [DropCR(data[..i])] + CompleteLines(data[i + 1..])
  }

  // The scanner waits for another Write.
  predicate Waiting(s: State)
    requires s.start <= s.end <= |s.buf|
  {
    && FirstLF(Data(s)) == |Data(s)| && !s.eof && !(Shift(s).end == |s.buf| == MAX_TOKEN_SIZE)
    && forall w :: w in s.pipe ==> w == []
  }

  // What has been written downstream when all Writes are taken and the pipe is left open.
  function WrittenWhileOpen(s: State): seq<seq<byte>>
    requires s.start <= s.end <= |s.buf| <= MAX_TOKEN_SIZE
    decreases Left(s)
  {
    if Waiting(s) then s.downstream
    else match Next(s)
         case Stop(outcome) => outcome.downstream
         case Continue(next) => WrittenWhileOpen(next)
  }

  lemma {:induction false} NothingInPipe(pipe: seq<seq<byte>>)
    requires forall w :: w in pipe ==> w == []
    ensures Concat(pipe) == []
  {
    if pipe != [] {
      assert pipe[0] in pipe;
      forall w | w in pipe[1..]
        ensures w == []
      {
        assert w in pipe;
      }
      NothingInPipe(pipe[1..]);
    }
  }

  lemma CompleteLinesOfPrefix(data: seq<byte>, rest: seq<byte>)
    requires |data| <= MAX_TOKEN_SIZE
    ensures var i := FirstLF(data);
            && (i < |data| ==> CompleteLines(data + rest) == [DropCR(data[..i])] + CompleteLines((data + rest)[i + 1..]))
            && (i == |data| == MAX_TOKEN_SIZE ==> CompleteLines(data + rest) == [])
            && (i == |data| && rest == [] ==> CompleteLines(data + rest) == [])
  {
    FirstIndexInPrefix(data, rest, LF);
    assert (data + rest)[..FirstLF(data)] == data[..FirstLF(data)];
    if rest == [] { assert data + rest == data; }
  }

  ghost function PendingWhileOpen(s: State): seq<seq<byte>>
    requires Valid(s)
  {
    s.downstream + WithDelimiter(CompleteLines(Unread(s)), s.delimiter)
  }

  // Fill reads a byte unless there is none, so the end of the input is never met.
  lemma {:induction false} FillStaysOpen(s: State)
    requires s.end < |s.buf| && !s.eof && exists w :: w in s.pipe && w != []
    ensures !Fill(s).eof
    decreases |s.pipe|
  {
    var w :| w in s.pipe && w != [];
    if s.pipe[0] == [] {
      assert w in s.pipe[1..];
      FillStaysOpen(s.(pipe := s.pipe[1..]));
    }
  }

  lemma OpenLineStep(s: State, i: nat, line: seq<byte>, t: State)
    requires Valid(s) && Harmless(s.delimiter)
    requires i == FirstLF(Data(s)) < |Data(s)| && line == DropCR(Data(s)[..i])
    requires |line| <= i && Token(s, |line|) == line && t == Emit(s, |line|, i + 1)
    ensures Valid(t) && PendingWhileOpen(t) == PendingWhileOpen(s) && t.delimiter == s.delimiter && t.eof == s.eof
  {
    EmitKeepsUnread(s, |line|, i + 1);
    CompleteLinesOfPrefix(Data(s), Concat(s.pipe));
    hide Emit;
    hide CompleteLines;
    hide DropCR;
    hide FirstLF;
    hide Token;
    PrependLine(line, CompleteLines(Unread(t)), s.delimiter, s.downstream);
  }

  lemma OpenNextKeepsPending(s: State)
    requires Valid(s) && Harmless(s.delimiter) && !s.eof && !Waiting(s)
    ensures Next(s).Continue? ==>
              var t := Next(s).next;
              Valid(t) && !t.eof && t.delimiter == s.delimiter && PendingWhileOpen(t) == PendingWhileOpen(s)
    ensures Next(s).Stop? ==> Next(s).outcome.downstream == PendingWhileOpen(s)
  {
    var i := FirstLF(Data(s));
    hide PendingWhileOpen;
    hide Emit;
    hide DropCR;
    hide Token;
    if i < |Data(s)| {
      LineIsToken(s, i);
      OpenLineStep(s, i, DropCR(Data(s)[..i]), Next(s).next);
    } else if Shift(s).end == |s.buf| == MAX_TOKEN_SIZE {
      OpenStop(s);
    } else {
      OpenReadStep(s);
    }
  }

  lemma OpenStop(s: State)
    requires Valid(s) && FirstLF(Data(s)) == |Data(s)|
    requires Waiting(s) || s.end - s.start == MAX_TOKEN_SIZE
    ensures PendingWhileOpen(s) == s.downstream
  {
    CompleteLinesOfPrefix(Data(s), Concat(s.pipe));
    if Waiting(s) { NothingInPipe(s.pipe); }
    assert CompleteLines(Unread(s)) == [];
    hide CompleteLines;
    hide Unread;
  }

  lemma OpenReadStep(s: State)
    requires Valid(s) && !s.eof && !Waiting(s) && FirstLF(Data(s)) == |Data(s)|
    requires !(Shift(s).end == |s.buf| == MAX_TOKEN_SIZE)
    ensures var t := Fill(Room(s));
            Valid(t) && !t.eof && t.delimiter == s.delimiter && PendingWhileOpen(t) == PendingWhileOpen(s)
  {
    RoomStep(s);
    FillKeepsUnread(Room(s));
    FillKeepsRest(Room(s));
    FillStaysOpen(Room(s));
    hide Unread;
    hide CompleteLines;
  }

  lemma {:induction false} OpenLoopIsBatch(s: State)
    requires Valid(s) && Harmless(s.delimiter) && !s.eof
    ensures WrittenWhileOpen(s) == PendingWhileOpen(s)
    decreases Left(s)
  {
    hide Next;
    hide PendingWhileOpen;
    if Waiting(s) {
      OpenStop(s);
    } else {
      OpenNextKeepsPending(s);
      hide Waiting;
      if Next(s).Continue? { OpenLoopIsBatch(Next(s).next); }
    }
  }

  // Before Close, downstream has received the complete lines of all Writes, and no more.
  lemma {:induction false} OpenWriterKeepsLastLine(writes: seq<seq<byte>>, delimiter: seq<byte>)
    requires Harmless(delimiter)
    ensures WrittenWhileOpen(Init(writes, delimiter)) == WithDelimiter(CompleteLines(Concat(writes)), delimiter)
  {
    OpenLoopIsBatch(Init(writes, delimiter));
    assert Unread(Init(writes, delimiter)) == Concat(writes);
  }

  // Those are all lines if and only if the data end with a line feed, or there are none, or a
  // line does not fit.
  lemma {:induction false} CompleteLinesIff(data: seq<byte>)
    ensures CompleteLines(data) == Lines(data) <==> data == [] || data[|data| - 1] == LF || HasLongLine(data)
    decreases |data|
  {
    var i := FirstLF(data);
    if i < |data| && i < MAX_TOKEN_SIZE {
      var rest := data[i + 1..];
      CompleteLinesIff(rest);
      var line := DropCR(data[..i]);
      assert CompleteLines(data) == [line] + CompleteLines(rest) && Lines(data) == [line] + Lines(rest);
      assert ([line] + CompleteLines(rest))[1..] == CompleteLines(rest) && ([line] + Lines(rest))[1..] == Lines(rest);
    } else if i == |data| && data != [] {
      assert data[|data| - 1] == data[..i][|data| - 1];
    }
  }

  // ---------- what a line is ----------

  // One line of a text: what stands before its end, which is a line feed or a carriage return
  // and a line feed.
  datatype Line = Line(content: seq<byte>, crlf: bool)

  // The line fits, and its end is where it says.
  predicate IsLine(l: Line) {
    && LF !in l.content
    && (!l.crlf && l.content != [] ==> l.content[|l.content| - 1] != CR)
    && |l.content| + (if l.crlf then 1 else 0) < MAX_TOKEN_SIZE
  }

  function BytesOf(l: Line): seq<byte> {
    l.content + (if l.crlf then [CR, LF] else [LF])
  }

  function TextOf(lines: seq<Line>): seq<byte> {
    if lines == [] then [] else BytesOf(lines[0]) + TextOf(lines[1..])
  }

  // What may stand behind the last line end: content and perhaps a carriage return.
  predicate IsRest(l: Line) {
    IsLine(l) && (l.content != [] || l.crlf)
  }

  function BytesOfRest(l: Line): seq<byte> {
    l.content + (if l.crlf then [CR] else [])
  }

  function Contents(lines: seq<Line>): (r: seq<seq<byte>>)
    ensures |r| == |lines| && forall k :: 0 <= k < |lines| ==> r[k] == lines[k].content
  {
    seq(|lines|, k requires 0 <= k < |lines| => lines[k].content)
  }

  lemma FirstLineOfText(l: Line, rest: seq<byte>)
    requires IsLine(l)
    ensures Lines(BytesOf(l) + rest) == [l.content] + Lines(rest)
    ensures CompleteLines(BytesOf(l) + rest) == [l.content] + CompleteLines(rest)
    ensures HasLongLine(BytesOf(l) + rest) == HasLongLine(rest)
  {
    var data, i := BytesOf(l) + rest, |BytesOf(l)| - 1;
    assert data[..i] == l.content + (if l.crlf then [CR] else []);
    assert data[i] == LF && data[i + 1..] == rest;
    FirstIndexIs(data, LF, i);
    assert DropCR(data[..i]) == l.content;
  }

  lemma RestOfText(l: Line)
    requires IsRest(l)
    ensures Lines(BytesOfRest(l)) == [l.content] && CompleteLines(BytesOfRest(l)) == []
    ensures !HasLongLine(BytesOfRest(l))
  {
    var data := BytesOfRest(l);
    assert LF !in data;
    FirstIndexIs(data, LF, |data|) by { assert data[..|data|] == data; }
    assert data[..|data|] == data;
    assert DropCR(data) == l.content;
  }

  lemma {:induction false} LinesOfText(lines: seq<Line>, tail: seq<byte>)
    requires forall l :: l in lines ==> IsLine(l)
    ensures Lines(TextOf(lines) + tail) == Contents(lines) + Lines(tail)
    ensures CompleteLines(TextOf(lines) + tail) == Contents(lines) + CompleteLines(tail)
    ensures HasLongLine(TextOf(lines) + tail) == HasLongLine(tail)
  {
    hide *;
    TextUnfolds(lines, tail);
    if lines != [] {
      forall l | l in lines[1..]
        ensures IsLine(l)
      {
        assert l in lines;
      }
      LinesOfText(lines[1..], tail);
      assert lines[0] in lines;
      FirstLineOfText(lines[0], TextOf(lines[1..]) + tail);
      Associative([lines[0].content], Contents(lines[1..]), Lines(tail));
      Associative([lines[0].content], Contents(lines[1..]), CompleteLines(tail));
    }
  }

  lemma NoCompleteLine(data: seq<byte>)
    requires LF !in data
    ensures CompleteLines(data) == []
  {
  }

  lemma Associative(x: seq<seq<byte>>, y: seq<seq<byte>>, z: seq<seq<byte>>)
    ensures x + (y + z) == (x + y) + z
  {
  }

  lemma TextUnfolds(lines: seq<Line>, tail: seq<byte>)
    ensures lines == [] ==>
              TextOf(lines) + tail == tail
              && Contents(lines) + Lines(tail) == Lines(tail)
              && Contents(lines) + CompleteLines(tail) == CompleteLines(tail)
    ensures lines != [] ==>
              TextOf(lines) + tail == BytesOf(lines[0]) + (TextOf(lines[1..]) + tail)
              && Contents(lines) == [lines[0].content] + Contents(lines[1..])
  {
    hide Lines;
    hide CompleteLines;
    hide BytesOf;
    hide IsLine;
  }

  // For a text of lines that end in LF or CR LF and fit the buffer, and for every way of
  // cutting it into Writes: downstream receives exactly the lines' contents, in order, each
  // with the delimiter, already before Close and no more after it.
  lemma {:induction false} TextIsRechunked(lines: seq<Line>, writes: seq<seq<byte>>, delimiter: seq<byte>)
    requires Harmless(delimiter) && (forall l :: l in lines ==> IsLine(l)) && Concat(writes) == TextOf(lines)
    ensures var out := Loop(Init(writes, delimiter)).downstream;
            |out| == |lines| && forall k :: 0 <= k < |lines| ==> out[k] == lines[k].content + delimiter
    ensures WrittenWhileOpen(Init(writes, delimiter)) == Loop(Init(writes, delimiter)).downstream
    ensures !Loop(Init(writes, delimiter)).tooLong
  {
    LinesAreRechunked(writes, delimiter);
    OpenWriterKeepsLastLine(writes, delimiter);
    LinesOfText(lines, []);
    assert TextOf(lines) + [] == TextOf(lines);
  }

  // If something stands behind the last line end, that is one more line: it is written after
  // Close, without a trailing carriage return, and missing before.
  lemma {:induction false} TextWithRestIsRechunked(
    lines: seq<Line>, rest: Line, writes: seq<seq<byte>>, delimiter: seq<byte>)
    requires Harmless(delimiter) && (forall l :: l in lines ==> IsLine(l)) && IsRest(rest)
    requires Concat(writes) == TextOf(lines) + BytesOfRest(rest)
    ensures var out := Loop(Init(writes, delimiter)).downstream;
            && |out| == |lines| + 1
            && (forall k :: 0 <= k < |lines| ==> out[k] == lines[k].content + delimiter)
            && out[|lines|] == rest.content + delimiter
            && WrittenWhileOpen(Init(writes, delimiter)) == out[..|lines|]
    ensures !Loop(Init(writes, delimiter)).tooLong
  {
    LinesAreRechunked(writes, delimiter);
    OpenWriterKeepsLastLine(writes, delimiter);
    LinesOfText(lines, BytesOfRest(rest));
    RestOfText(rest);
    hide Loop;
    hide Lines;
    hide CompleteLines;
  }

  // ---------- longer delimiters ----------

  lemma {:induction false} LoopExtends(s: State)
    requires s.start <= s.end <= |s.buf| <= MAX_TOKEN_SIZE
    ensures s.downstream <= Loop(s).downstream
    decreases Left(s)
  {
    if Next(s).Continue? {
      NextExtends(s);
      LoopExtends(Next(s).next);
    }
  }

  lemma NextExtends(s: State)
    requires s.start <= s.end <= |s.buf| <= MAX_TOKEN_SIZE && Next(s).Continue?
    ensures s.downstream <= Next(s).next.downstream
  {
    if !(FirstLF(Data(s)) < |Data(s)|) && !s.eof {
      FillKeepsRest(Room(s));
    }
  }

  // The input on which any delimiter that is not harmless overwrites a byte that has not been
  // scanned: a line long enough to make the buffer grow to its full size, an empty line, and
  // one more byte.
  const LONG: nat := 40000

  function LongLine(n: nat): seq<byte> {
    seq(n, _ => 65 as byte)
  }

  function Victim(delimiter: seq<byte>): byte
    requires |delimiter| >= 2
  {
    if delimiter[1] == 65 then 66 else 65
  }

  function VictimWrites(delimiter: seq<byte>): seq<seq<byte>>
    requires |delimiter| >= 2
  {
    [LongLine(LONG), [LF], [LF, Victim(delimiter)]]
  }

  predicate BufferSize(n: nat) {
    n == 0 || n == 4096 || n == 8192 || n == 16384 || n == 32768 || n == 65536
  }

  // The long line is being read, and `unread` is what is left of it.
  ghost predicate ReadingLine(s: State, unread: seq<byte>, v: byte) {
    && s.start == 0 && s.end + |unread| == LONG && s.end <= |s.buf| && BufferSize(|s.buf|)
    && !s.eof && s.downstream == [] && LF !in Data(s) && LF !in unread && unread != []
    && s.pipe == [unread, [LF], [LF, v]]
  }

  // It has been read, into a buffer of the largest size.
  ghost predicate LineRead(s: State, v: byte) {
    && s.start == 0 && s.end == LONG && |s.buf| == MAX_TOKEN_SIZE
    && !s.eof && s.downstream == [] && LF !in Data(s)
    && s.pipe == [[LF], [LF, v]]
  }

  lemma NoLineYet(s: State)
    requires s.start <= s.end <= |s.buf| && LF !in Data(s)
    ensures FirstLF(Data(s)) == |Data(s)|
  {
    FirstIndexIs(Data(s), LF, |Data(s)|);
  }

  lemma RoomForLine(s: State, unread: seq<byte>, v: byte)
    requires ReadingLine(s, unread, v)
    ensures ReadingLine(Room(s), unread, v) && Room(s).end < |Room(s).buf| && Room(s).delimiter == s.delimiter
  {
    if s.end == |s.buf| {
      var t := Grow(s);
      assert t.buf[..s.end] == Data(s);
      assert BufferSize(|t.buf|);
    }
  }

  lemma FillFromLine(s: State, unread: seq<byte>, v: byte) returns (rest: seq<byte>)
    requires ReadingLine(s, unread, v) && s.end < |s.buf|
    ensures var t := Fill(s);
            t.delimiter == s.delimiter && (if rest == [] then LineRead(t, v) else ReadingLine(t, rest, v))
  {
    var n, t := Fitting(s, unread), Fill(s);
    rest := unread[n..];
    TookAppends(s, unread);
    assert t.buf == Took(s, unread).buf;
    hide Took;
    assert Data(t) == Data(s) + unread[..n];
    assert t.pipe == (if rest == [] then [] else [rest]) + s.pipe[1..];
  }

  lemma {:induction false} ReadLongLine(s: State, unread: seq<byte>, v: byte) returns (t: State)
    requires ReadingLine(s, unread, v)
    ensures LineRead(t, v) && t.delimiter == s.delimiter && Loop(t) == Loop(s)
    decreases Left(s)
  {
    NoLineYet(s);
    RoomForLine(s, unread, v);
    var rest := FillFromLine(Room(s), unread, v);
    var next := Fill(Room(s));
    assert Next(s) == Continue(next);
    hide *;
    assert Loop(s) == Loop(next) by { LoopUnfolds(s); }
    if rest == [] {
      t := next;
    } else {
      t := ReadLongLine(next, rest, v);
    }
  }

  lemma LoopUnfolds(s: State)
    requires s.start <= s.end <= |s.buf| <= MAX_TOKEN_SIZE && Next(s).Continue?
    ensures Loop(s) == Loop(Next(s).next)
  {
  }

  // The rest of what happens, one round at a time, up to the empty line in the buffer.
  ghost predicate LineEndRead(s: State, v: byte) {
    && s.start == 0 && s.end == LONG + 1 && |s.buf| == MAX_TOKEN_SIZE
    && !s.eof && s.downstream == [] && FirstLF(Data(s)) == LONG && s.pipe == [[LF, v]]
  }

  ghost predicate LineWritten(s: State, v: byte) {
    && s.start == s.end == LONG + 1 && |s.buf| == MAX_TOKEN_SIZE
    && !s.eof && |s.downstream| == 1 && s.pipe == [[LF, v]]
  }

  ghost predicate EmptyLineRead(s: State, v: byte) {
    && s.start == 0 && s.end == 2 && |s.buf| == MAX_TOKEN_SIZE
    && !s.eof && |s.downstream| == 1 && Data(s) == [LF, v] && s.pipe == []
  }

  // Now the first byte of the delimiter has replaced the line end, and the second one the
  // byte behind it.
  ghost predicate EmptyLineWritten(s: State) {
    && s.start == 1 && s.end == 2 && |s.buf| == MAX_TOKEN_SIZE
    && !s.eof && |s.downstream| == 2 && s.pipe == []
    && |s.delimiter| >= 2 && Data(s) == [s.delimiter[1]]
  }

  lemma ReadsLineEnd(s: State, v: byte)
    requires LineRead(s, v)
    ensures Next(s).Continue? && LineEndRead(Next(s).next, v) && Next(s).next.delimiter == s.delimiter
  {
    NoLineYet(s);
    TookAppends(s, [LF]);
    hide Took;
    var t := Next(s).next;
    assert Data(t) == Data(s) + [LF];
    FirstIndexIs(Data(t), LF, LONG) by { assert Data(t)[..LONG] == Data(s); }
    assert t.pipe == [] + s.pipe[1..];
  }

  lemma WritesLine(s: State, v: byte)
    requires LineEndRead(s, v)
    ensures Next(s).Continue? && LineWritten(Next(s).next, v) && Next(s).next.delimiter == s.delimiter
  {
    hide Append;
    assert |Data(s)| == LONG + 1;
  }

  lemma ReadsEmptyLine(s: State, v: byte)
    requires LineWritten(s, v)
    ensures Next(s).Continue? && EmptyLineRead(Next(s).next, v) && Next(s).next.delimiter == s.delimiter
  {
    NoLineYet(s);
    var m := Shift(s);
    assert m == Moved(s) && m.end == 0;
    TookAppends(m, [LF, v]);
    hide Moved;
    hide Took;
    var t := Next(s).next;
    assert t == Fill(m);
    assert Data(t) == [] + [LF, v];
    assert t.pipe == [] + s.pipe[1..];
  }

  lemma WritesEmptyLine(s: State, v: byte)
    requires EmptyLineRead(s, v) && 2 <= |s.delimiter| <= MAX_TOKEN_SIZE
    ensures Next(s).Continue? && EmptyLineWritten(Next(s).next) && Next(s).next.delimiter == s.delimiter
  {
    FirstIndexIs(Data(s), LF, 0);
    var t := Next(s).next;
    assert DropCR(Data(s)[..0]) == [];
    assert t.buf == Append(s.buf, 0, s.delimiter);
    assert t.buf[1] == s.delimiter[1];
  }

  // The byte behind the empty line is lost: the third Write is not that byte's line.
  lemma WritesAnotherLine(s: State, v: byte)
    requires EmptyLineWritten(s) && v != s.delimiter[1]
    ensures var out := Loop(s).downstream; |out| >= 3 && out[2] != [v] + s.delimiter
  {
    var d := s.delimiter[1];
    if d == LF {
      FirstIndexIs(Data(s), LF, 0);
      hide Append;
      assert Next(s).next.downstream[2] == Token(s, 0) + s.delimiter;
      LoopExtends(Next(s).next);
    } else {
      NoLineYet(s);
      var t := s.(eof := true);
      assert Next(s) == Continue(t);
      assert Data(t) == [d];
      LastLineDiffers(t, v);
      LoopExtends(Next(t).next);
      LoopUnfolds(s);
      LoopUnfolds(t);
    }
  }

  lemma LastLineDiffers(t: State, v: byte)
    requires t.start == 1 && t.end == 2 && |t.buf| == MAX_TOKEN_SIZE && t.eof && |t.downstream| == 2
    requires |t.delimiter| >= 2 && Data(t) == [t.delimiter[1]] && t.delimiter[1] != LF && t.delimiter[1] != v
    ensures Next(t).Continue?
    ensures var out := Next(t).next.downstream; |out| == 3 && out[2] != [v] + t.delimiter
  {
    NoLineYet(t);
    hide Append;
    var token := Token(t, |DropCR(Data(t))|);
    assert Next(t).next.downstream[2] == token + t.delimiter;
    if |token| == 1 {
      assert token[0] == Data(t)[0];
      assert (token + t.delimiter)[0] == t.delimiter[1] != v;
    }
  }

  lemma VictimLines(delimiter: seq<byte>)
    requires |delimiter| >= 2
    ensures |Lines(Concat(VictimWrites(delimiter)))| == 3
    ensures Lines(Concat(VictimWrites(delimiter)))[2] == [Victim(delimiter)]
  {
    var v, line := Victim(delimiter), LongLine(LONG);
    var data := Concat(VictimWrites(delimiter));
    VictimData(delimiter);
    FirstIndexIs(data, LF, LONG);
    TwoLines(v);
    assert data[LONG + 1..] == [LF, v];
  }

  lemma VictimData(delimiter: seq<byte>)
    requires |delimiter| >= 2
    ensures var data := Concat(VictimWrites(delimiter));
            |data| == LONG + 3 && data[..LONG] == LongLine(LONG) && data[LONG] == LF
            && data[LONG + 1..] == [LF, Victim(delimiter)]
  {
    var v, line := Victim(delimiter), LongLine(LONG);
    var w := VictimWrites(delimiter);
    hide LongLine;
    assert w[1..] == [[LF], [LF, v]] && w[1..][1..] == [[LF, v]] && w[1..][1..][1..] == [];
    assert Concat([[LF, v]]) == [LF, v] + [];
    assert Concat(w) == line + ([LF] + [LF, v]);
  }

  lemma TwoLines(b: byte)
    requires b != LF && b != CR
    ensures Lines([LF, b]) == [[], [b]]
  {
    FirstIndexIs([LF, b], LF, 0);
    FirstIndexIs([b], LF, 1);
    assert [LF, b][1..] == [b] && [LF, b][..0] == [];
    assert Lines([b]) == [[b]];
  }

  lemma StartsReading(delimiter: seq<byte>)
    requires |delimiter| >= 2
    ensures ReadingLine(Init(VictimWrites(delimiter), delimiter), LongLine(LONG), Victim(delimiter))
  {
  }

  // A delimiter that is not harmless spoils the third line of this input.
  lemma {:induction false} OtherDelimitersCorrupt(delimiter: seq<byte>)
    requires !Harmless(delimiter)
    ensures var writes := VictimWrites(delimiter);
            Loop(Init(writes, delimiter)).downstream != WithDelimiter(Lines(Concat(writes)), delimiter)
  {
    var v, s0 := Victim(delimiter), Init(VictimWrites(delimiter), delimiter);
    StartsReading(delimiter);
    VictimLines(delimiter);
    hide *;
    var s1 := ReadLongLine(s0, LongLine(LONG), v);
    ReadsLineEnd(s1, v);
    var s2 := Next(s1).next;
    WritesLine(s2, v);
    var s3 := Next(s2).next;
    ReadsEmptyLine(s3, v);
    var s4 := Next(s3).next;
    IsHarmful(delimiter);
    WritesEmptyLine(s4, v);
    var s5 := Next(s4).next;
    LoopUnfolds(s1);
    LoopUnfolds(s2);
    LoopUnfolds(s3);
    LoopUnfolds(s4);
    WritesAnotherLine(s5, v);
  }

  lemma IsHarmful(delimiter: seq<byte>)
    requires !Harmless(delimiter)
    ensures 2 <= |delimiter| <= MAX_TOKEN_SIZE && Victim(delimiter) != delimiter[1]
  {
  }

  // Downstream receives the batch split of every input, however it is cut into Writes, if and
  // only if the delimiter is harmless: at most one byte, or longer than any buffer.
  lemma {:induction false} RechunkedIffHarmless(delimiter: seq<byte>)
    ensures (forall writes :: Loop(Init(writes, delimiter)).downstream == WithDelimiter(Lines(Concat(writes)), delimiter))
       <==> Harmless(delimiter)
  {
    if Harmless(delimiter) {
      forall writes
        ensures Loop(Init(writes, delimiter)).downstream == WithDelimiter(Lines(Concat(writes)), delimiter)
      {
        LinesAreRechunked(writes, delimiter);
      }
    } else {
      OtherDelimitersCorrupt(delimiter);
    }
  }

  // ---------- the writer itself ----------

  // Arrays compared element by element with what the steps above say.
  lemma IsTook(s: State, p: seq<byte>, r: seq<byte>)
    requires s.end <= |s.buf| == |r|
    requires forall m :: 0 <= m < s.end || s.end + Fitting(s, p) <= m < |r| ==> r[m] == s.buf[m]
    requires forall k :: 0 <= k < Fitting(s, p) ==> r[s.end + k] == p[k]
    ensures r == Took(s, p).buf
  {
    var n, t := Fitting(s, p), Took(s, p).buf;
    forall m | 0 <= m < |r|
      ensures r[m] == t[m]
    {
      if s.end <= m < s.end + n {
        assert r[s.end + (m - s.end)] == p[m - s.end];
      }
    }
  }

  lemma IsMoved(s: State, r: seq<byte>)
    requires s.start <= s.end <= |s.buf| == |r|
    requires forall m :: 0 <= m < s.end - s.start ==> r[m] == s.buf[s.start + m]
    requires forall m :: s.end - s.start <= m < |r| ==> r[m] == s.buf[m]
    ensures r == Moved(s).buf
  {
  }

  lemma IsAppended(buf: seq<byte>, at: nat, d: seq<byte>, start: nat, r: seq<byte>)
    requires start <= at && at + |d| <= |buf| == |r|
    requires forall m :: 0 <= m < at || at + |d| <= m < |r| ==> r[m] == buf[m]
    requires forall k :: 0 <= k < |d| ==> r[at + k] == d[k]
    ensures r == Append(buf, at, d) && r[start..at + |d|] == buf[start..at] + d
  {
    var t := Append(buf, at, d);
    forall m | 0 <= m < |r|
      ensures r[m] == t[m]
    {
      if at <= m < at + |d| {
        assert r[at + (m - at)] == d[m - at];
      }
    }
    assert t[start..at + |d|] == buf[start..at] + d;
  }

  class Scanner {
    const delimiter: seq<byte>
    var buf: array<byte>
    var start: nat
    var end: nat
    var eof: bool
    var pipe: seq<seq<byte>>
    var downstream: seq<seq<byte>>

    ghost function Abs(): State
      reads this, buf
    {
      State(buf[..], start, end, eof, pipe, delimiter, downstream)
    }

    ghost predicate Sound()
      reads this, buf
    {
      start <= end <= buf.Length <= MAX_TOKEN_SIZE
    }

    constructor (writes: seq<seq<byte>>, delimiter: seq<byte>)
      ensures Sound() && fresh(buf) && Abs() == Init(writes, delimiter)
    {
      this.delimiter := delimiter;
      buf := new byte[0];
      start, end, eof := 0, 0, false;
      pipe, downstream := writes, [];
    }

    // IndexByte over the bytes not yet scanned.
    method FindLF() returns (i: nat)
      requires Sound()
      ensures i == FirstLF(Data(Abs()))
    {
      i := 0;
      while i < end - start && buf[start + i] != LF
        invariant i <= end - start
        invariant LF !in Data(Abs())[..i]
      {
        i := i + 1;
      }
      FirstIndexIs(Data(Abs()), LF, i);
    }

    // The length of the line of i bytes once a trailing carriage return is dropped.
    method LineLength(i: nat) returns (length: nat)
      requires Sound() && i <= end - start
      ensures length <= i && length == |DropCR(Data(Abs())[..i])|
    {
      ghost var line := Data(Abs())[..i];
      assert |line| == i && (i > 0 ==> line[i - 1] == buf[start + i - 1]);
      length := if i > 0 && buf[start + i - 1] == CR then i - 1 else i;
    }

    // append(buf[start:at], delimiter...): in place if the delimiter fits.
    method AppendDelimiter(at: nat) returns (bytes: seq<byte>)
      requires start <= at <= buf.Length
      modifies buf
      ensures buf[..] == Append(old(buf[..]), at, delimiter)
      ensures bytes == old(buf[..])[start..at] + delimiter
    {
      ghost var before := buf[..];
      if at + |delimiter| <= buf.Length {
        for k := 0 to |delimiter|
          invariant forall m :: 0 <= m < at || at + k <= m < buf.Length ==> buf[m] == before[m]
          invariant forall m :: 0 <= m < k ==> buf[at + m] == delimiter[m]
        {
          buf[at + k] := delimiter[k];
        }
        IsAppended(before, at, delimiter, start, buf[..]);
        bytes := buf[..][start..at + |delimiter|];
      } else {
        bytes := buf[..][start..at] + delimiter;
      }
    }

    // append(token, delimiter...) followed by the write downstream.
    method EmitToken(length: nat, advance: nat)
      requires Sound() && length <= advance <= end - start
      modifies this`start, this`downstream, buf
      ensures Sound() && Abs() == Emit(old(Abs()), length, advance)
    {
      var bytes := AppendDelimiter(start + length);
      hide Append;
      downstream := downstream + [bytes];
      start := start + advance;
    }

    // copy(buf, buf[start:end]): moves the unscanned bytes to the front.
    method Compact()
      requires Sound()
      modifies this`start, this`end, buf
      ensures Sound() && Abs() == Moved(old(Abs()))
    {
      hide Moved;
      ghost var before := Abs();
      var n := end - start;
      for k := 0 to n
        modifies buf
        invariant forall m :: 0 <= m < k ==> buf[m] == before.buf[start + m]
        invariant forall m :: k <= m < buf.Length ==> buf[m] == before.buf[m]
      {
        buf[k] := buf[start + k];
      }
      IsMoved(before, buf[..]);
      end := n;
      start := 0;
    }

    // Moves the unscanned bytes to a larger buffer.
    method Enlarge()
      requires Sound() && end == buf.Length < MAX_TOKEN_SIZE
      modifies this`buf, this`start, this`end
      ensures Sound() && fresh(buf) && Abs() == Grow(old(Abs()))
    {
      var size := NewSize(buf.Length);
      var larger := new byte[size](_ => 0);
      ghost var data := Data(Abs());
      for k := 0 to end - start
        modifies larger
        invariant larger[..] == data[..k] + Zeros(size - k)
      {
        larger[k] := buf[start + k];
      }
      assert data[..end - start] == data;
      buf := larger;
      end := end - start;
      start := 0;
    }

    // Compacts the buffer when that is due, and grows it when it is full.
    method MakeRoom()
      requires Sound() && !(Shift(Abs()).end == buf.Length == MAX_TOKEN_SIZE)
      modifies this`buf, this`start, this`end, buf
      ensures Sound() && (buf == old(buf) || fresh(buf)) && Abs() == Room(old(Abs()))
    {
      ghost var before := Abs();
      if start > 0 && (end == buf.Length || start > buf.Length / 2) {
        Compact();
      }
      assert Abs() == Shift(before);
      if end == buf.Length {
        Enlarge();
      }
    }

    // Copies the first bytes of p behind the unscanned ones: as many as fit.
    method TakeFrom(p: seq<byte>) returns (n: nat)
      requires Sound()
      modifies this`end, buf
      ensures Sound() && n == Fitting(old(Abs()), p) && Abs() == Took(old(Abs()), p)
    {
      n := if |p| <= buf.Length - end then |p| else buf.Length - end;
      ghost var before := Abs();
      for k := 0 to n
        modifies buf
        invariant forall m :: 0 <= m < end || end + k <= m < buf.Length ==> buf[m] == before.buf[m]
        invariant forall m :: 0 <= m < k ==> buf[end + m] == p[m]
      {
        buf[end + k] := p[k];
      }
      IsTook(before, p, buf[..]);
      hide Took;
      end := end + n;
    }

    // Drops the empty Writes in front.
    method SkipEmpty()
      requires Sound() && end < buf.Length
      modifies this`pipe
      ensures Fill(Abs()) == Fill(old(Abs())) && (pipe == [] || pipe[0] != [])
    {
      while pipe != [] && pipe[0] == []
        invariant Fill(Abs()) == Fill(old(Abs()))
        decreases |pipe|
      {
        pipe := pipe[1..];
      }
    }

    // Reads once from the pipe.
    method ReadPipe()
      requires Sound() && end < buf.Length
      modifies this`end, this`eof, this`pipe, buf
      ensures Sound() && Abs() == Fill(old(Abs()))
    {
      SkipEmpty();
      ghost var skipped := Abs();
      if pipe == [] {
        eof := true;
      } else {
        var p := pipe[0];
        hide Took;
        hide Fitting;
        var n := TakeFrom(p);
        pipe := (if n == |p| then [] else [p[n..]]) + pipe[1..];
        assert Abs() == Fill(skipped);
      }
    }

    // One round of the scanning loop.
    method Round() returns (stopped: bool, tooLong: bool)
      requires Sound()
      modifies this, buf
      ensures Sound() && (buf == old(buf) || fresh(buf))
      ensures Next(old(Abs())) == if stopped then Stop(Outcome(downstream, tooLong)) else Continue(Abs())
    {
      hide Emit;
      hide Fill;
      hide Room;
      hide DropCR;
      stopped, tooLong := false, false;
      ghost var before := Abs();
      var i := FindLF();
      if i < end - start {
        var length := LineLength(i);
        EmitToken(length, i + 1);
      } else if eof && start < end {
        assert Data(before)[..i] == Data(before);
        var length := LineLength(i);
        EmitToken(length, end - start);
      } else if eof {
        stopped := true;
      } else if (start == 0 || !(end == buf.Length || start > buf.Length / 2)) && end == buf.Length == MAX_TOKEN_SIZE {
        stopped, tooLong := true, true;
      } else {
        MakeRoom();
        ReadPipe();
      }
    }

    // The reader goroutine: scans to the end of the pipe, or to a line that does not fit.
    method Run() returns (tooLong: bool)
      requires Sound()
      modifies this, buf
      ensures Outcome(downstream, tooLong) == Loop(old(Abs()))
    {
      hide Next;
      var stopped := false;
      tooLong := false;
      while !stopped
        invariant Sound() && (buf == old(buf) || fresh(buf))
        invariant Loop(old(Abs())) == if stopped then Outcome(downstream, tooLong) else Loop(Abs())
        decreases !stopped, if stopped then 0 else Left(Abs())
      {
        stopped, tooLong := Round();
      }
    }
  }
}
