/** The load-testing client (server/clients.py): a generator of telemetry records, and a
    `Client` that logs in, streams the records, and runs two heartbeat threads that probe
    the server with KEEP_ALIVE and count the probes left unanswered in `missed`.

    The threads are modelled sequentially: each pass of a heartbeat loop is a `Beat` the
    environment schedules, and the data loop runs the beats scheduled before each send.
    The clock is an abstract integer `now` carried by each beat, and the random draws of
    the generator are a function the environment supplies. */
module Clients {
  import opened Text
  import opened Protocol
  import opened Heartbeat

  /** Characters of Python's `repr` of a float in [0, 1). */
  predicate IsFloatChar(c: char)
  {
    IsDigit(c) || c == '.' || c == 'e' || c == '-'
  }

  /** The text of a float drawn by `random.random()`, as an f-string renders it. */
  type FloatText = s: string | |s| > 0 && forall i :: 0 <= i < |s| ==> IsFloatChar(s[i]) witness "0.5"

  /** The third field of a record: `randint(0, 100)` or `random()`, half the time each. */
  datatype Value = IntValue(n: nat) | FloatValue(text: FloatText)

  /** One event: a millisecond timestamp, a code and a value. */
  datatype Sample = Sample(ts: nat, code: nat, value: Value)

  function ValueText(v: Value): (t: string)
    ensures |t| > 0 && forall i :: 0 <= i < |t| ==> IsFloatChar(t[i])
  {
    match v
    case IntValue(n) => NatToString(n)
    case FloatValue(text) => text
  }

  /** `f"{ts};{code};{value}\n"`. */
  function Render(s: Sample): string
  {
    NatToString(s.ts) + ";" + NatToString(s.code) + ";" + ValueText(s.value) + "\n"
  }

  /** `datastream(num)`: `num` records, the i-th drawn by `draw(i)`. */
  function DataStream(num: nat, draw: nat -> Sample): (lines: seq<string>)
    ensures |lines| == num
    ensures forall i :: 0 <= i < num ==> lines[i] == Render(draw(i))
  {
    seq(num, i requires 0 <= i => Render(draw(i)))
  }

  /** No record character is a separator, a newline or outside ASCII. */
  lemma FieldChars(t: string)
    requires forall i :: 0 <= i < |t| ==> IsFloatChar(t[i])
    ensures ';' !in t && '\n' !in t && IsAscii(t)
  {
  }

  /** A rendered record splits on ';' into its three rendered fields, the last one
      carrying the newline. */
  lemma RenderFields(s: Sample)
    ensures Split(Render(s), ';') == [NatToString(s.ts), NatToString(s.code), ValueText(s.value) + "\n"]
  {
    var a, b, c := NatToString(s.ts), NatToString(s.code), ValueText(s.value) + "\n";
    FieldChars(a);
    FieldChars(b);
    FieldChars(ValueText(s.value));
    assert ';' !in c by {
      forall i | 0 <= i < |c| ensures c[i] != ';' {
        if i < |c| - 1 { assert c[i] == ValueText(s.value)[i]; }
      }
    }
    assert [a, b, c][1..] == [b, c] && [b, c][1..] == [c];
    assert Join([b, c], ';') == b + [';'] + c;
    assert Join([a, b, c], ';') == a + [';'] + (b + [';'] + c);
    assert Render(s) == a + [';'] + (b + [';'] + c);
    SplitJoin([a, b, c], ';');
  }

  /** Every rendered record is one ASCII line with exactly three ';'-separated fields, so
      the queued server counts it and stores it. */
  lemma RenderIsRecord(s: Sample)
    ensures IsRecord(Render(s))
    ensures IsLine(Render(s))
    ensures IsAscii(Render(s))
  {
    RenderFields(s);
    var a, b, v := NatToString(s.ts), NatToString(s.code), ValueText(s.value);
    FieldChars(a);
    FieldChars(b);
    FieldChars(v);
    var r := Render(s);
    assert r == a + ";" + b + ";" + v + "\n";
    CountAppend(a + ";" + b + ";" + v, "\n", '\n');
    CountAppend(a + ";" + b + ";", v, '\n');
    CountAppend(a + ";" + b, ";", '\n');
    CountAppend(a + ";", b, '\n');
    CountAppend(a, ";", '\n');
    CountAbsent(a, '\n');
    CountAbsent(b, '\n');
    CountAbsent(v, '\n');
    AsciiAppend(a, ";");
    AsciiAppend(a + ";", b);
    AsciiAppend(a + ";" + b, ";");
    AsciiAppend(a + ";" + b + ";", v);
    AsciiAppend(a + ";" + b + ";" + v, "\n");
  }

  /** Every line of a data stream is an ASCII record line. */
  lemma DataStreamRecords(num: nat, draw: nat -> Sample)
    ensures forall i :: 0 <= i < num ==>
      var line := DataStream(num, draw)[i];
      IsRecord(line) && IsLine(line) && IsAscii(line)
  {
    forall i | 0 <= i < num
      ensures IsRecord(DataStream(num, draw)[i]) && IsLine(DataStream(num, draw)[i]) && IsAscii(DataStream(num, draw)[i])
    {
      RenderIsRecord(draw(i));
    }
  }

  /** One pass of `recv_keep_alive` or `send_keep_alive`; a thread whose loop condition
      fails leaves its loop and closes the socket. */
  function Step(h: HeartState, b: Beat, timeout: int): (r: HeartState)
    ensures r.missed - r.timeouts + r.echoes == h.missed - h.timeouts + h.echoes
    ensures r.finished == h.finished
    ensures r.timeouts >= h.timeouts && r.echoes >= h.echoes
    ensures r.recvRunning ==> h.recvRunning
    ensures r.sendRunning ==> h.sendRunning
    ensures r.sock != h.sock ==> r.sock == Closed && (r.recvRunning != h.recvRunning || r.sendRunning != h.sendRunning)
  {
    match b
    case Receive(response, now) =>
      if !h.recvRunning then h
      else if !Alive(h) || response.None? || h.sock == Closed then h.(recvRunning := false, sock := Closed)
      else if !IsAscii(response.value) then h.(recvRunning := false) // the decode raises and the thread dies
      else if StripStr(response.value) == KEEP_ALIVE then
        h.(missed := h.missed - 1, timestamp := now, echoes := h.echoes + 1)
      else h
    case Tick(now, fails) =>
      if !h.sendRunning then h
      else if !Alive(h) then h.(sendRunning := false, sock := Closed)
      else if now - h.timestamp <= timeout then h
      else
        var p := h.(missed := h.missed + 1, timestamp := now, timeouts := h.timeouts + 1);
        if fails || h.sock == Closed then p.(sendRunning := false, sock := Closed) else p
  }

  /** The beats `bs` run in order. */
  function RunBeats(h: HeartState, bs: seq<Beat>, timeout: int): HeartState
  {
    if bs == [] then h else Step(RunBeats(h, bs[..|bs| - 1], timeout), bs[|bs| - 1], timeout)
  }

  /** `missed` always equals its initial value plus the probes counted minus the echoes
      counted, whatever the schedule. */
  lemma {:induction false} RunBeatsAccount(h: HeartState, bs: seq<Beat>, timeout: int)
    ensures var r := RunBeats(h, bs, timeout);
      && r.missed - r.timeouts + r.echoes == h.missed - h.timeouts + h.echoes
      && r.finished == h.finished
  {
    if bs != [] {
      RunBeatsAccount(h, bs[..|bs| - 1], timeout);
    }
  }

  /** The heartbeat threads close the socket only when one of them leaves its loop: while
      both still run, the socket they share is still open. */
  lemma {:induction false} RunBeatsOpen(h: HeartState, bs: seq<Beat>, timeout: int)
    requires h.recvRunning && h.sendRunning ==> h.sock == Open
    ensures var r := RunBeats(h, bs, timeout);
      r.recvRunning && r.sendRunning ==> r.sock == Open && h.recvRunning && h.sendRunning
  {
    if bs != [] {
      RunBeatsOpen(h, bs[..|bs| - 1], timeout);
    }
  }

  /** When the last of the beats `bs` happened, or `from` if there were none. */
  function LastTime(from: int, bs: seq<Beat>): int
  {
    if bs == [] then from else bs[|bs| - 1].now
  }

  /** Probes that go out, each more than `timeout` after the previous one (the first
      more than `timeout` after `from`). */
  predicate Spaced(from: int, bs: seq<Beat>, timeout: int)
  {
    bs == [] ||
      var q := bs[..|bs| - 1];
      var b := bs[|bs| - 1];
      && Spaced(from, q, timeout)
      && b.Tick? && !b.fails && b.now - LastTime(from, q) > timeout
  }

  lemma {:induction false} SpacedPrefix(from: int, bs: seq<Beat>, more: seq<Beat>, timeout: int)
    requires Spaced(from, bs + more, timeout)
    ensures Spaced(from, bs, timeout)
  {
    if more != [] {
      assert (bs + more)[..|bs + more| - 1] == bs + more[..|more| - 1];
      SpacedPrefix(from, bs, more[..|more| - 1], timeout);
    } else {
      assert bs + more == bs;
    }
  }

  /** While the session is running, each probe that finds the server silent raises
      `missed` by one: k unanswered probes raise it by k. */
  lemma {:induction false} UnansweredProbes(h: HeartState, bs: seq<Beat>, timeout: int)
    requires !h.finished && h.sendRunning && h.sock == Open
    requires Spaced(h.timestamp, bs, timeout)
    ensures var r := RunBeats(h, bs, timeout);
      && r.missed == h.missed + |bs|
      && r.sendRunning && r.sock == Open && !r.finished
      && r.timestamp == LastTime(h.timestamp, bs)
  {
    if bs != [] {
      var q := bs[..|bs| - 1];
      UnansweredProbes(h, q, timeout);
      var r := RunBeats(h, q, timeout);
      var b := bs[|bs| - 1];
      assert b.Tick? && !b.fails && b.now - r.timestamp > timeout;
      assert RunBeats(h, bs, timeout) == Step(r, b, timeout);
    }
  }

  /** Enough unanswered probes are always detected by the intended test. */
  lemma LossDetected(h: HeartState, bs: seq<Beat>, timeout: int)
    requires !h.finished && h.sendRunning && h.sock == Open
    requires Spaced(h.timestamp, bs, timeout)
    requires |bs| >= -h.missed
    ensures LivenessLost(RunBeats(h, bs, timeout).missed)
  {
    UnansweredProbes(h, bs, timeout);
  }

  /** As written, two probes between two sends can carry `missed` from -1 to 1, and from
      then on unanswered probes only raise it: the `== 0` test never fires again, and
      the client keeps streaming to a server that stopped answering. */
  lemma MissedLossAsWritten(h: HeartState, bs: seq<Beat>, more: seq<Beat>, timeout: int)
    requires !h.finished && h.sendRunning && h.sock == Open
    requires h.missed == -1 && |bs| == 2
    requires Spaced(h.timestamp, bs + more, timeout)
    ensures var r := RunBeats(h, bs, timeout);
      && r.missed == 1
      && !LivenessLostAsWritten(r.missed) && LivenessLost(r.missed)
      && !LivenessLostAsWritten(RunBeats(h, bs + more, timeout).missed)
  {
    SpacedPrefix(h.timestamp, bs, more, timeout);
    UnansweredProbes(h, bs, timeout);
    UnansweredProbes(h, bs + more, timeout);
  }

  /** How `send_data` ended. */
  datatype Outcome =
    | Refused            // `connect` raised ConnectionRefusedError: early return
    | Crashed            // an encode or decode error escaped `send_data`
    | Rejected           // the reply was not ACCEPTED
    | SendFailed(k: nat) // the `sendall` of line k raised OSError
    | Lost(k: nat)       // the liveness test fired after k lines
    | Completed          // every line sent, then the FINISHED frame attempted

  /** The data loop's progress: the heartbeat state, what `send_data` has written, and
      how the loop stopped, once it has (`Crashed`, `SendFailed` or `Lost`). */
  datatype Progress = Progress(heart: HeartState, sent: seq<string>, stop: Option<Outcome>)

  /** Turn `i` of `for data in self.datastream`: the heartbeat passes of the round, then
      `sendall(bytes(data, 'ascii'))`, then the liveness test. A failing send sets
      `finished` and breaks; a fired test closes the socket, sets `finished` and breaks. */
  function SendOne(p: Progress, round: Round, data: string, i: nat, timeout: int, test: Liveness): Progress
  {
    if p.stop.Some? then p
    else
      var h := RunBeats(p.heart, round.beats, timeout);
      if !IsAscii(data) then Progress(h, p.sent, Some(Crashed))
      else if round.sendFails || h.sock == Closed then Progress(h.(finished := true), p.sent, Some(SendFailed(i)))
      else if Fires(test, h.missed) then Progress(h.(sock := Closed, finished := true), p.sent + [data], Some(Lost(i + 1)))
      else Progress(h, p.sent + [data], None)
  }

  /** The data loop over `lines`, the i-th line in round `RoundAt(rounds, i)`. */
  function Feed(p: Progress, lines: seq<string>, rounds: seq<Round>, timeout: int, test: Liveness): Progress
  {
    if lines == [] then p
    else
      var n := |lines| - 1;
      SendOne(Feed(p, lines[..n], rounds, timeout, test), RoundAt(rounds, n), lines[n], n, timeout, test)
  }

  /** The outcome of a data loop that ends in `q`. */
  function LoopOutcome(q: Progress): Outcome
  {
    if q.stop.Some? then q.stop.value else Completed
  }

  lemma FeedStep(p: Progress, lines: seq<string>, rounds: seq<Round>, timeout: int, test: Liveness, i: nat)
    requires i < |lines|
    ensures Feed(p, lines[..i + 1], rounds, timeout, test)
            == SendOne(Feed(p, lines[..i], rounds, timeout, test), RoundAt(rounds, i), lines[i], i, timeout, test)
  {
    assert lines[..i + 1][..i] == lines[..i];
  }

  /** Once the loop has stopped, later lines change nothing. */
  lemma {:induction false} FeedStopped(p: Progress, lines: seq<string>, rounds: seq<Round>, timeout: int,
                                       test: Liveness, i: nat)
    requires i <= |lines| && Feed(p, lines[..i], rounds, timeout, test).stop.Some?
    ensures Feed(p, lines, rounds, timeout, test) == Feed(p, lines[..i], rounds, timeout, test)
    decreases |lines|
  {
    if i < |lines| {
      var q := lines[..|lines| - 1];
      assert q[..i] == lines[..i];
      FeedStopped(p, q, rounds, timeout, test, i);
    } else {
      assert lines[..i] == lines;
    }
  }

  /** The loop writes the first m lines in order, m the number it wrote: all of them when
      it runs to the end (and `finished` is then as it was), fewer than all when a line
      raises, the first k when the send of line k fails, and the first k when the test
      fires after line k. */
  lemma {:induction false} FeedSent(p: Progress, lines: seq<string>, rounds: seq<Round>, timeout: int, test: Liveness)
    requires p.stop.None?
    ensures var r := Feed(p, lines, rounds, timeout, test);
      var m := |r.sent| - |p.sent|;
      && |p.sent| <= |r.sent| <= |p.sent| + |lines|
      && r.sent == p.sent + lines[..m]
      && (r.stop.None? ==> m == |lines| && r.heart.finished == p.heart.finished)
      && (r.stop.Some? ==>
            || (r.stop.value == Crashed && m < |lines|)
            || (r.stop.value == SendFailed(m) && m < |lines|)
            || (r.stop.value == Lost(m) && 0 < m))
  {
    if lines != [] {
      var n := |lines| - 1;
      var q := lines[..n];
      FeedSent(p, q, rounds, timeout, test);
      var f := Feed(p, q, rounds, timeout, test);
      assert q[..|f.sent| - |p.sent|] == lines[..|f.sent| - |p.sent|];
      if f.stop.None? {
        SendOneSent(f, RoundAt(rounds, n), lines[n], n, timeout, test);
        assert lines[..n + 1] == lines;
        assert p.sent + q + [lines[n]] == p.sent + lines;
      }
    }
  }

  /** One turn writes its line when the loop goes on and when the test fires after it,
      and nothing when the line raises or its send fails. */
  lemma SendOneSent(f: Progress, round: Round, data: string, i: nat, timeout: int, test: Liveness)
    requires f.stop.None?
    ensures var r := SendOne(f, round, data, i, timeout, test);
      && (r.stop.None? ==> r.sent == f.sent + [data] && r.heart.finished == f.heart.finished)
      && (r.stop.Some? ==>
            || (r.stop.value == Crashed && r.sent == f.sent)
            || (r.stop.value == SendFailed(i) && r.sent == f.sent)
            || (r.stop.value == Lost(i + 1) && r.sent == f.sent + [data]))
  {
    RunBeatsAccount(f.heart, round.beats, timeout);
  }

  /** With the intended test, a line sent after enough unanswered probes ends the loop:
      the client sees the loss, writes nothing more and reports it. */
  lemma LossEndsStream(p: Progress, lines: seq<string>, rounds: seq<Round>, timeout: int, k: nat)
    requires p.stop.None? && k < |lines|
    requires var q := Feed(p, lines[..k], rounds, timeout, Intended);
      && q.stop.None? && !q.heart.finished && q.heart.sendRunning && q.heart.sock == Open
      && Spaced(q.heart.timestamp, RoundAt(rounds, k).beats, timeout)
      && |RoundAt(rounds, k).beats| >= -q.heart.missed
    requires IsAscii(lines[k]) && !RoundAt(rounds, k).sendFails
    ensures Feed(p, lines, rounds, timeout, Intended).stop == Some(Lost(k + 1))
    ensures Feed(p, lines, rounds, timeout, Intended).sent == p.sent + lines[..k + 1]
  {
    var q := Feed(p, lines[..k], rounds, timeout, Intended);
    UnansweredProbes(q.heart, RoundAt(rounds, k).beats, timeout);
    FeedStep(p, lines, rounds, timeout, Intended, k);
    FeedStopped(p, lines, rounds, timeout, Intended, k + 1);
    FeedSent(p, lines[..k], rounds, timeout, Intended);
    assert lines[..k + 1] == lines[..k] + [lines[k]];
  }

  /** The send loop as written: with `missed` at -1 and a silent server, two probes go out
      before the only line. The `== 0` test then sees 1 and lets the loop run to its end
      on an open socket, so FINISHED follows; the intended test reports the loss. */
  lemma MissedLossInLoop(h: HeartState, greeting: string, a: string, timeout: int)
    requires !h.finished && h.sendRunning && h.sock == Open && h.missed == -1
    requires IsAscii(a)
    ensures var rounds := [Round([Tick(h.timestamp + timeout + 1, false), Tick(h.timestamp + 2 * timeout + 2, false)], false)];
      var p := Progress(h, [greeting], None);
      var w := Feed(p, [a], rounds, timeout, AsWritten);
      var c := Feed(p, [a], rounds, timeout, Intended);
      && LoopOutcome(w) == Completed && w.sent == [greeting, a] && w.heart.sock == Open && w.heart.missed == 1
      && LoopOutcome(c) == Lost(1) && c.sent == [greeting, a]
  {
    var b0, b1 := Tick(h.timestamp + timeout + 1, false), Tick(h.timestamp + 2 * timeout + 2, false);
    var bs := [b0, b1];
    assert bs[..1] == [b0] && [b0][..0] == [];
    var h1 := Step(h, b0, timeout);
    assert RunBeats(h, [b0], timeout) == h1;
    assert RunBeats(h, bs, timeout) == Step(h1, b1, timeout);
    assert [a][..0] == [];
  }

  class Client {
    const user: string
    const password: string
    const stream: seq<string>
    const timeout: int
    const initialMissed: int
    var missed: int
    var timestamp: int
    var finished: bool
    var sock: Sock
    var recvRunning: bool
    var sendRunning: bool
    var timeouts: nat
    var echoes: nat
    var sent: seq<string> // what `send_data` wrote to the socket, in order

    /** `missed` is its initial value plus the probes counted minus the echoes counted. */
    ghost predicate Valid()
      reads this
    {
      missed == initialMissed + timeouts - echoes
    }

    function Heart(): HeartState
      reads this
    {
      HeartState(missed, timestamp, finished, sock, recvRunning, sendRunning, timeouts, echoes)
    }

    /** `Client(user, password, datastream, ip, port, timeout=1, missed=-3)`. */
    constructor(user: string, password: string, stream: seq<string>, timeout: int := 1, missed: int := -3)
      ensures Valid()
      ensures this.user == user && this.password == password && this.stream == stream
      ensures this.timeout == timeout && initialMissed == missed
      ensures Heart() == HeartState(missed, 0, false, Unconnected, false, false, 0, 0)
      ensures sent == []
    {
      this.user := user;
      this.password := password;
      this.stream := stream;
      this.timeout := timeout;
      initialMissed := missed;
      this.missed := missed;
      timestamp := 0;
      finished := false;
      sock := Unconnected;
      recvRunning := false;
      sendRunning := false;
      timeouts := 0;
      echoes := 0;
      sent := [];
    }
    /** One pass of `recv_keep_alive` (or its exit). */
    method RecvKeepAlive(response: Option<string>, now: int)
      requires Valid()
      modifies this`missed, this`timestamp, this`sock, this`recvRunning, this`echoes
      ensures Valid()
      ensures Heart() == Step(old(Heart()), Receive(response, now), timeout)
    {
      if !recvRunning {
        return;
      }
      if !(!finished || missed < 0) || response.None? || sock == Closed {
        recvRunning, sock := false, Closed;
        return;
      }
      if !IsAscii(response.value) {
        recvRunning := false;
        return;
      }
      if StripStr(response.value) == KEEP_ALIVE {
        missed := missed - 1;
        timestamp := now;
        echoes := echoes + 1;
      }
    }

    /** One pass of `send_keep_alive` (or its exit). */
    method SendKeepAlive(now: int, fails: bool)
      requires Valid()
      modifies this`missed, this`timestamp, this`sock, this`sendRunning, this`timeouts
      ensures Valid()
      ensures Heart() == Step(old(Heart()), Tick(now, fails), timeout)
    {
      if !sendRunning {
        return;
      }
      if !(!finished || missed < 0) {
        sendRunning, sock := false, Closed;
        return;
      }
      if now - timestamp > timeout {
        missed := missed + 1;
        timestamp := now;
        timeouts := timeouts + 1;
        if fails || sock == Closed {
          sendRunning, sock := false, Closed;
        }
      }
    }

    /** The heartbeat passes scheduled before one send, in order. */
    method Beats(bs: seq<Beat>)
      requires Valid()
      modifies this`missed, this`timestamp, this`sock, this`recvRunning, this`sendRunning, this`timeouts, this`echoes
      ensures Valid()
      ensures Heart() == RunBeats(old(Heart()), bs, timeout)
    {
      var i := 0;
      while i < |bs|
        invariant i <= |bs| && Valid()
        invariant Heart() == RunBeats(old(Heart()), bs[..i], timeout)
      {
        assert bs[..i + 1][..i] == bs[..i];
        match bs[i] {
          case Receive(response, now) => RecvKeepAlive(response, now);
          case Tick(now, fails) => SendKeepAlive(now, fails);
        }
        i := i + 1;
      }
      assert bs[..i] == bs;
    }


    /** `send_data`: connect, greet, and on ACCEPTED start the heartbeat threads and
        stream the data. `reply` is what the server answers to the greeting, `rounds` the
        heartbeat passes around each send, `finishFails` whether the FINISHED `sendall`
        raises, and `test` the liveness test the loop applies (`AsWritten` is
        `self.missed == 0`). */
    method SendData(connectOk: bool, reply: string, rounds: seq<Round>, finishFails: bool, test: Liveness)
      returns (outcome: Outcome)
      requires Valid()
      requires Heart() == HeartState(initialMissed, 0, false, Unconnected, false, false, 0, 0)
      requires sent == []
      modifies this`missed, this`timestamp, this`finished, this`sock, this`recvRunning, this`sendRunning,
               this`timeouts, this`echoes, this`sent
      ensures Valid()
      ensures sock == Closed
      ensures outcome == Refused <==> !connectOk
      ensures finished <==> outcome != Refused && outcome != Crashed
      ensures connectOk && !IsAscii(Greeting(user, password)) ==> outcome == Crashed && sent == []
      ensures !(connectOk && IsAscii(Greeting(user, password)) && IsAscii(reply) && IsAcceptance(reply)) ==>
        Heart() == old(Heart()).(sock := Closed, finished := outcome == Rejected)
      ensures connectOk && IsAscii(Greeting(user, password)) && !IsAscii(reply) ==>
        outcome == Crashed && sent == [Greeting(user, password)]
      ensures connectOk && IsAscii(Greeting(user, password)) && IsAscii(reply) && !IsAcceptance(reply) ==>
        outcome == Rejected && sent == [Greeting(user, password)]
      ensures connectOk && IsAscii(Greeting(user, password)) && IsAscii(reply) && IsAcceptance(reply) ==>
        var q := Feed(Progress(Started(old(Heart())), [Greeting(user, password)], None), stream, rounds, timeout, test);
        && outcome == LoopOutcome(q)
        && (sent == q.sent || sent == q.sent + [Frame(FINISHED)])
        && (sent == q.sent + [Frame(FINISHED)] <==> outcome == Completed && !finishFails && q.heart.sock != Closed)
        && Heart() == q.heart.(sock := Closed, finished := outcome != Crashed)
    {
      if !connectOk {
        sock := Closed;
        return Refused;
      }
      sock := Open;
      var greeting := Greeting(user, password);
      if !IsAscii(greeting) {
        sock := Closed;
        return Crashed;
      }
      sent := sent + [greeting];
      if !IsAscii(reply) {
        sock := Closed;
        return Crashed;
      }
      if StripStr(reply) != ACCEPTED {
        sock := Closed;
        finished := true;
        return Rejected;
      }
      recvRunning, sendRunning := true, true;
      assert Heart() == Started(old(Heart())) && sent == [greeting];
      outcome := StreamData(rounds, finishFails, test);
      sock := Closed;
      finished := outcome != Crashed;
    }

    /** The `for data in self.datastream` loop, as `Feed` describes it, and the FINISHED
        frame after a loop that ran to its end, sent when the socket is still open and
        its `sendall` does not raise. */
    method StreamData(rounds: seq<Round>, finishFails: bool, test: Liveness) returns (outcome: Outcome)
      requires Valid() && !finished
      modifies this`missed, this`timestamp, this`finished, this`sock, this`recvRunning, this`sendRunning,
               this`timeouts, this`echoes, this`sent
      ensures Valid()
      ensures outcome == Completed || outcome == Crashed || outcome.SendFailed? || outcome.Lost?
      ensures var q := Feed(Progress(old(Heart()), old(sent), None), stream, rounds, timeout, test);
        && outcome == LoopOutcome(q)
        && Heart() == q.heart
        && sent == q.sent + (if outcome == Completed && !finishFails && q.heart.sock != Closed then [Frame(FINISHED)] else [])
    {
      ghost var start := Progress(Heart(), sent, None);
      FeedSent(start, stream, rounds, timeout, test);
      var i := 0;
      while i < |stream|
        invariant i <= |stream| && Valid() && !finished
        invariant Progress(Heart(), sent, None) == Feed(start, stream[..i], rounds, timeout, test)
      {
        FeedStep(start, stream, rounds, timeout, test, i);
        var stop := SendLine(RoundAt(rounds, i), stream[i], i, test);
        if stop.Some? {
          FeedStopped(start, stream, rounds, timeout, test, i + 1);
          return stop.value;
        }
        i := i + 1;
      }
      assert stream[..i] == stream;
      if !finished && !finishFails && sock != Closed {
        sent := sent + [Frame(FINISHED)];
      }
      outcome := Completed;
    }

    /** Turn `i` of the data loop, as `SendOne` describes it. */
    method SendLine(round: Round, data: string, i: nat, test: Liveness) returns (stop: Option<Outcome>)
      requires Valid() && !finished
      modifies this`missed, this`timestamp, this`finished, this`sock, this`recvRunning, this`sendRunning,
               this`timeouts, this`echoes, this`sent
      ensures Valid()
      ensures stop.None? ==> !finished
      ensures Progress(Heart(), sent, stop) == SendOne(Progress(old(Heart()), old(sent), None), round, data, i, timeout, test)
    {
      ghost var before := Heart();
      Beats(round.beats);
      RunBeatsAccount(before, round.beats, timeout);
      if !IsAscii(data) {
        return Some(Crashed);
      }
      if round.sendFails || sock == Closed {
        finished := true;
        return Some(SendFailed(i));
      }
      sent := sent + [data];
      if Fires(test, missed) {
        sock := Closed;
        finished := true;
        return Some(Lost(i + 1));
      }
      return None;
    }
  }
}
