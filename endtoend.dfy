/** What a server stores from a client's data stream, for the client and server pairs the
    repository runs together: the current client against the queued server, the current
    client against the first server (as the repository's server test does), and the first
    client against the first server. Each server session is read from the lines the
    client wrote after its greeting. */
module EndToEnd {
  import opened Text
  import opened Protocol
  import ServerQ
  import LegacyServer
  import Clients
  import LegacyClient

  /** Lines that are all ASCII record lines, as both clients generate them. */
  predicate Records(p: seq<string>)
  {
    forall i :: 0 <= i < |p| ==> IsRecord(p[i]) && IsLine(p[i]) && IsAscii(p[i])
  }

  /** A record holds a ';', so it is never taken for a code. */
  lemma RecordHasSeparator(line: string)
    requires IsRecord(line)
    ensures ';' in line
  {
    CountAbsent(line, ';');
  }

  /** The queued server counts and stores every record line. */
  lemma {:induction false} QueuedKeepsRecords(p: seq<string>)
    requires Records(p)
    ensures ServerQ.EventCount(p) == |p|
    ensures ServerQ.Stored(p) == p
    ensures ServerQ.Probes(p) == 0
    ensures forall i :: 0 <= i < |p| ==> !ServerQ.EndsLoop(p[i])
  {
    if p != [] {
      var q := p[..|p| - 1];
      var x := p[|p| - 1];
      QueuedKeepsRecords(q);
      RecordHasSeparator(x);
      ServerQ.ClassifyRecord(x);
      assert q + [x] == p;
      forall i | 0 <= i < |p| ensures !ServerQ.EndsLoop(p[i]) {
        if i < |q| { assert p[i] == q[i]; }
      }
    }
  }

  /** The queued server recognises the FINISHED frame. */
  lemma FinishedFrameEndsQueued()
    ensures ServerQ.Classify(Frame(FINISHED)) == ServerQ.FinishedLine
  {
    StripTrailing(FINISHED, "\n", IsStrSpace);
  }

  /** Record lines followed by FINISHED: the queued server's session counts and stores
      exactly those lines, ends on FINISHED, and reads nothing after it. Its blob then
      splits on '\n' into one part more than there were lines. */
  lemma QueuedSession(stream: seq<string>, rest: seq<string>)
    requires Records(stream)
    ensures var lines := stream + [Frame(FINISHED)] + rest;
      var s := ServerQ.Run(ServerQ.Opened(), ServerQ.Consumed(lines));
      && ServerQ.LoopExit(lines) == ServerQ.FinishedFrame
      && s.counter == |stream|
      && s.blob == Concat(stream)
      && s.finished
      && s.replies == [Frame(ACCEPTED)]
      && |Split(s.blob, '\n')| == |stream| + 1
  {
    var lines := stream + [Frame(FINISHED)] + rest;
    QueuedKeepsRecords(stream);
    FinishedFrameEndsQueued();
    assert lines[|stream|] == Frame(FINISHED);
    assert stream <= lines by { assert lines[..|stream|] == stream; }
    ServerQ.CutPrefix(stream, lines);
    assert lines[..ServerQ.Cut(lines)] == stream;
    ServerQ.SessionReference(lines);
    SplitLines(stream);
    assert [Frame(ACCEPTED)] + Repeat(Frame(KEEP_ALIVE), 0) == [Frame(ACCEPTED)];
  }

  /** The current client's stream, sent in full and followed by FINISHED, is stored by the
      queued server as `num` events whose blob splits into `num + 1` parts. */
  lemma CurrentClientToQueuedServer(num: nat, draw: nat -> Clients.Sample, rest: seq<string>)
    ensures var stream := Clients.DataStream(num, draw);
      var lines := stream + [Frame(FINISHED)] + rest;
      var s := ServerQ.Run(ServerQ.Opened(), ServerQ.Consumed(lines));
      && ServerQ.LoopExit(lines) == ServerQ.FinishedFrame
      && s.counter == num
      && s.blob == Concat(stream)
      && |Split(s.blob, '\n')| == num + 1
  {
    Clients.DataStreamRecords(num, draw);
    QueuedSession(Clients.DataStream(num, draw), rest);
  }

  /** The first server keeps every non-empty ASCII line that is not a probe. */
  lemma LegacySession(lines: seq<string>)
    requires forall i :: 0 <= i < |lines| ==>
      IsLine(lines[i]) && IsAscii(lines[i]) && LegacyServer.Classify(lines[i]).Event?
    ensures var s := LegacyServer.Run(LegacyServer.Opened(), lines[..LegacyServer.Cut(lines)]);
      && LegacyServer.LoopExit(lines) == LegacyServer.Eof
      && s.counter == |lines|
      && s.blob == Concat(lines)
      && |Split(s.blob, '\n')| == |lines| + 1
  {
    var k := LegacyServer.Cut(lines);
    assert lines[..k] == lines;
    LegacyServer.KeptAll(lines);
    LegacyServer.RunKept(LegacyServer.Opened(), lines);
    SplitLines(lines);
  }

  /** A record is data to the first server. */
  lemma RecordIsLegacyEvent(line: string)
    requires IsRecord(line) && IsAscii(line)
    ensures LegacyServer.Classify(line).Event?
  {
    RecordHasSeparator(line);
    RecordIsNotCode(line, KEEP_ALIVE);
  }

  /** The current client against the first server: FINISHED is stored as one more event,
      so the blob splits into `num + 2` parts, not the `num + 1` the repository's server
      test expects. */
  lemma CurrentClientToLegacyServer(num: nat, draw: nat -> Clients.Sample)
    ensures var stream := Clients.DataStream(num, draw);
      var s := LegacyServer.Run(LegacyServer.Opened(), (stream + [Frame(FINISHED)])[..LegacyServer.Cut(stream + [Frame(FINISHED)])]);
      && s.counter == num + 1
      && s.blob == Concat(stream) + Frame(FINISHED)
      && |Split(s.blob, '\n')| == num + 2
  {
    var stream := Clients.DataStream(num, draw);
    var lines := stream + [Frame(FINISHED)];
    Clients.DataStreamRecords(num, draw);
    LegacyServer.FinishedIsData();
    forall i | 0 <= i < |lines|
      ensures IsLine(lines[i]) && IsAscii(lines[i]) && LegacyServer.Classify(lines[i]).Event?
    {
      if i < num {
        RecordIsLegacyEvent(lines[i]);
      } else {
        assert lines[i] == Frame(FINISHED);
        CountAppend(FINISHED, "\n", '\n');
        CountAbsent(FINISHED, '\n');
        assert "\n"[1..] == [];
      }
    }
    LegacySession(lines);
    ConcatAppend(stream, [Frame(FINISHED)]);
    assert [Frame(FINISHED)][..0] == [];
  }

  /** The first client against the first server: every event is stored, and the blob
      splits into `num + 1` parts. */
  lemma LegacyClientToLegacyServer(num: nat, draw: nat -> LegacyClient.Reading)
    ensures var stream := LegacyClient.DataStream(num, draw);
      var s := LegacyServer.Run(LegacyServer.Opened(), stream[..LegacyServer.Cut(stream)]);
      && s.counter == num
      && s.blob == Concat(stream)
      && |Split(s.blob, '\n')| == num + 1
  {
    var stream := LegacyClient.DataStream(num, draw);
    LegacyClient.DataStreamRecords(num, draw);
    forall i | 0 <= i < num
      ensures IsLine(stream[i]) && IsAscii(stream[i]) && LegacyServer.Classify(stream[i]).Event?
    {
      RecordIsLegacyEvent(stream[i]);
    }
    LegacySession(stream);
  }
}
