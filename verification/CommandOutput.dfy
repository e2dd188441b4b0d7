/**
 The writer that each command's stdout and stderr gets: a MorphingWriter that passes what it is
 given on to a ScanningWriter, whose lines go to the one LockingWriter of all commands.

 Closing the command's writer closes the MorphingWriter. Nobody closes the ScanningWriter, so
 it never learns that its input has ended.
 */
module CommandOutput {
  import opened Bytes
  import Morph = MorphingWriter
  import Scan = ScanningWriter
  import Lock = LockingWriter

  // One command's output: the Writes made to it, and how its bytes reached the scanner.
  datatype Source = Source(
    writes: seq<seq<byte>>, steps: seq<Morph.Event>, end: Morph.State, scanned: seq<seq<byte>>)

  // The MorphingWriter is closed, and what it has forwarded has been given to the scanner in
  // Writes of any size.
  ghost predicate PassedThrough(o: Source, size: nat) {
    && size > 0 && Morph.Run(Morph.Init(o.writes, LF, size), o.steps, o.end) && o.end.wpc.Closed?
    && Concat(o.scanned) == o.end.dest
  }

  function LinesOf(o: Source): seq<seq<byte>> {
    Scan.WrittenWhileOpen(Scan.Init(o.scanned, [LF]))
  }

  function AllLines(outputs: seq<Source>): seq<seq<seq<byte>>> {
    seq(|outputs|, i requires 0 <= i < |outputs| => LinesOf(outputs[i]))
  }

  function Ended(lines: seq<seq<byte>>): seq<seq<byte>> {
    Scan.WithDelimiter(lines, [LF])
  }

  // What the scanner passes on of one command: the complete lines of all the command's Writes
  // if no Write was cut, and otherwise those of the stream with the cut Write's beginning
  // repeated.
  lemma {:induction false} LinesOfSource(o: Source, size: nat)
    requires PassedThrough(o, size)
    ensures var data, r := Concat(o.writes), Morph.StopAt(o.writes, LF, size);
            && Morph.ResumeAt(o.writes, r) <= r <= |data|
            && LinesOf(o) == Ended(Scan.CompleteLines(data[..r] + data[Morph.ResumeAt(o.writes, r)..]))
    ensures Morph.Uncut(o.writes, LF, size) ==> LinesOf(o) == Ended(Scan.CompleteLines(Concat(o.writes)))
  {
    Morph.DestinationHolds(o.writes, LF, size, o.steps, o.end);
    Morph.ForwardsExactlyIff(o.writes, LF, size, o.steps, o.end);
    Scan.OpenWriterKeepsLastLine(o.scanned, [LF]);
  }

  // All commands together, under every schedule of every stage: the output is whole lines, and
  // those of each command are the complete lines of its stream, in order.
  lemma {:induction false} OutputMergesCompleteLines(
    outputs: seq<Source>, size: nat, schedule: seq<nat>, s: Lock.State)
    requires size > 0 && forall i :: 0 <= i < |outputs| ==> PassedThrough(outputs[i], size)
    requires Lock.Run(Lock.Init(AllLines(outputs)), schedule, s) && Lock.AllWritten(s)
    ensures s.out == Lock.Flatten(s.log)
    ensures forall i :: 0 <= i < |outputs| && Morph.Uncut(outputs[i].writes, LF, size) ==>
              Lock.Project(s.log, i) == Ended(Scan.CompleteLines(Concat(outputs[i].writes)))
    ensures forall i :: 0 <= i < |outputs| ==>
              Lock.Project(s.log, i) == Ended(Scan.CompleteLines(outputs[i].end.dest))
  {
    Lock.FinalOutputIsMerge(AllLines(outputs), schedule, s);
    forall i | 0 <= i < |outputs|
      ensures Lock.Project(s.log, i) == LinesOf(outputs[i])
      ensures LinesOf(outputs[i]) == Ended(Scan.CompleteLines(outputs[i].end.dest))
      ensures Morph.Uncut(outputs[i].writes, LF, size) ==>
                LinesOf(outputs[i]) == Ended(Scan.CompleteLines(Concat(outputs[i].writes)))
    {
      assert AllLines(outputs)[i] == LinesOf(outputs[i]);
      LinesOfSource(outputs[i], size);
      Scan.OpenWriterKeepsLastLine(outputs[i].scanned, [LF]);
    }
  }

  // In particular a command that writes text, none of its Writes cut: its part of the output
  // is the contents of its lines, each with a line feed.
  lemma {:induction false} TextIsMerged(
    outputs: seq<Source>, size: nat, schedule: seq<nat>, s: Lock.State,
    i: nat, lines: seq<Scan.Line>, rest: seq<byte>)
    requires size > 0 && forall i :: 0 <= i < |outputs| ==> PassedThrough(outputs[i], size)
    requires Lock.Run(Lock.Init(AllLines(outputs)), schedule, s) && Lock.AllWritten(s)
    requires i < |outputs| && Morph.Uncut(outputs[i].writes, LF, size)
    requires (forall l :: l in lines ==> Scan.IsLine(l)) && LF !in rest
    requires Concat(outputs[i].writes) == Scan.TextOf(lines) + rest
    ensures var part := Lock.Project(s.log, i);
            |part| == |lines| && forall k :: 0 <= k < |lines| ==> part[k] == lines[k].content + [LF]
  {
    OutputMergesCompleteLines(outputs, size, schedule, s);
    Scan.LinesOfText(lines, rest);
    Scan.NoCompleteLine(rest);
    hide *;
    assert Scan.Contents(lines) + [] == Scan.Contents(lines);
  }

  // A command whose Writes are not cut loses a line if and only if its output has a last line
  // that no line feed ends.
  lemma {:induction false} LosesLastLineIff(o: Source, size: nat)
    requires PassedThrough(o, size) && Morph.Uncut(o.writes, LF, size) && !Scan.HasLongLine(Concat(o.writes))
    ensures var data := Concat(o.writes);
            LinesOf(o) != Ended(Scan.Lines(data)) <==> data != [] && data[|data| - 1] != LF
  {
    var data := Concat(o.writes);
    LinesOfSource(o, size);
    Scan.CompleteLinesIff(data);
    SameLines(Scan.CompleteLines(data), Scan.Lines(data));
  }

  lemma SameLines(a: seq<seq<byte>>, b: seq<seq<byte>>)
    ensures Ended(a) == Ended(b) <==> a == b
  {
    if Ended(a) == Ended(b) {
      assert |a| == |Ended(a)| == |b|;
      forall k | 0 <= k < |a|
        ensures a[k] == b[k]
      {
        assert Ended(a)[k] == a[k] + [LF] && Ended(b)[k] == b[k] + [LF];
        assert (a[k] + [LF])[..|a[k] + [LF]| - 1] == a[k] && (b[k] + [LF])[..|b[k] + [LF]| - 1] == b[k];
      }
    }
  }
}
