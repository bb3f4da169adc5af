/** The first load-testing client (server/client.py): the same heartbeat scheme as the
    current client, without its error handling. A failed heartbeat send or receive ends
    that thread without closing the socket. The data loop closes the socket when the
    liveness test fires but keeps going, so the next `sendall` raises out of `send_data`.
    There is no FINISHED frame.

    Threads, the clock and the random draws are modelled as in the current client: beats
    scheduled by the environment, an integer `now`, and a draw function. */
module LegacyClient {
  import opened Text
  import opened Protocol
  import opened Heartbeat
  import Clients

  /** One event of `data_stream`: a millisecond timestamp and two `randint(0, 100)` draws. */
  datatype Reading = Reading(ts: nat, code: nat, value: nat)

  /** `f"{ts};{randint(0,100)};{randint(0,100)}\n"`. */
  function Render(r: Reading): string
  {
    NatToString(r.ts) + ";" + NatToString(r.code) + ";" + NatToString(r.value) + "\n"
  }

  /** `data_stream(num, per_second)`: `num` records, the i-th drawn by `draw(i)`. */
  function DataStream(num: nat, draw: nat -> Reading): (lines: seq<string>)
    ensures |lines| == num
    ensures forall i :: 0 <= i < num ==> lines[i] == Render(draw(i))
  {
    seq(num, i requires 0 <= i => Render(draw(i)))
  }

  /** A legacy record is the current client's record whose value is an integer. */
  lemma RenderAsCurrent(r: Reading)
    ensures Render(r) == Clients.Render(Clients.Sample(r.ts, r.code, Clients.IntValue(r.value)))
  {
  }

  /** Every line of a legacy data stream is an ASCII record line. */
  lemma DataStreamRecords(num: nat, draw: nat -> Reading)
    ensures forall i :: 0 <= i < num ==>
      var line := DataStream(num, draw)[i];
      IsRecord(line) && IsLine(line) && IsAscii(line)
  {
    forall i | 0 <= i < num
      ensures IsRecord(DataStream(num, draw)[i]) && IsLine(DataStream(num, draw)[i]) && IsAscii(DataStream(num, draw)[i])
    {
      RenderAsCurrent(draw(i));
      Clients.RenderIsRecord(Clients.Sample(draw(i).ts, draw(i).code, Clients.IntValue(draw(i).value)));
    }
  }

  /** One pass of the legacy `recv_keep_alive` or `send_keep_alive`. Without a `try`, an
      OSError from `recv` or `sendall` ends the thread without closing the socket. */
  function Step(h: HeartState, b: Beat, timeout: int): (r: HeartState)
    ensures r.missed - r.timeouts + r.echoes == h.missed - h.timeouts + h.echoes
    ensures r.finished == h.finished
    ensures r.timeouts >= h.timeouts && r.echoes >= h.echoes
    ensures r.recvRunning ==> h.recvRunning
    ensures r.sendRunning ==> h.sendRunning
    ensures r.sock == h.sock || (r.sock == Closed && h.finished)
  {
    match b
    case Receive(response, now) =>
      if !h.recvRunning then h
      else if !Alive(h) then h.(recvRunning := false, sock := Closed)
      else if response.None? || h.sock == Closed then h.(recvRunning := false) // `recv` raised OSError
      else if !IsAscii(response.value) then h.(recvRunning := false)             // the decode raised
      else if StripStr(response.value) == KEEP_ALIVE then
        h.(missed := h.missed - 1, timestamp := now, echoes := h.echoes + 1)
      else h
    case Tick(now, fails) =>
      if !h.sendRunning then h
      else if !Alive(h) then h.(sendRunning := false, sock := Closed)
      else if now - h.timestamp <= timeout then h
      else
        var p := h.(missed := h.missed + 1, timestamp := now, timeouts := h.timeouts + 1);
        if fails || h.sock == Closed then p.(sendRunning := false) else p // `sendall` raised OSError
  }

  /** The beats `bs` run in order. */
  function RunBeats(h: HeartState, bs: seq<Beat>, timeout: int): HeartState
  {
    if bs == [] then h else Step(RunBeats(h, bs[..|bs| - 1], timeout), bs[|bs| - 1], timeout)
  }

  /** `missed` is its initial value plus the probes counted minus the echoes counted, and
      until the session has finished the heartbeat threads never touch the socket. */
  lemma {:induction false} RunBeatsKeeps(h: HeartState, bs: seq<Beat>, timeout: int)
    ensures var r := RunBeats(h, bs, timeout);
      && r.missed - r.timeouts + r.echoes == h.missed - h.timeouts + h.echoes
      && r.finished == h.finished
      && (!h.finished ==> r.sock == h.sock)
  {
    if bs != [] {
      RunBeatsKeeps(h, bs[..|bs| - 1], timeout);
    }
  }

  /** A send thread that has died stops counting probes: from then on `missed` can only
      go down, so a liveness test that has not fired by then never fires. */
  lemma {:induction false} DeadSenderNeverLoses(h: HeartState, bs: seq<Beat>, timeout: int)
    requires !h.sendRunning
    ensures RunBeats(h, bs, timeout).missed <= h.missed
    ensures !RunBeats(h, bs, timeout).sendRunning
  {
    if bs != [] {
      DeadSenderNeverLoses(h, bs[..|bs| - 1], timeout);
    }
  }

  /** The data loop's progress: the heartbeat state, what `send_data` has written, and
      whether an exception has escaped the loop. */
  datatype Progress = Progress(heart: HeartState, sent: seq<string>, crashed: bool)

  /** One turn of `for data in data_stream(...)`: the heartbeat passes of the round, the
      `sendall` (which raises on a closed socket, a failing send or a non-ASCII line), and
      the liveness test `missed == 0`, which closes the socket and does not leave the loop. */
  function SendOne(p: Progress, round: Round, data: string, timeout: int): Progress
  {
    if p.crashed then p
    else
      var h := RunBeats(p.heart, round.beats, timeout);
      if !IsAscii(data) || round.sendFails || h.sock == Closed then Progress(h, p.sent, true)
      else if LivenessLostAsWritten(h.missed) then Progress(h.(sock := Closed), p.sent + [data], false)
      else Progress(h, p.sent + [data], false)
  }

  /** The data loop over `lines`, the i-th line in round `RoundAt(rounds, i)`. */
  function Feed(p: Progress, lines: seq<string>, rounds: seq<Round>, timeout: int): Progress
  {
    if lines == [] then p
    else SendOne(Feed(p, lines[..|lines| - 1], rounds, timeout), RoundAt(rounds, |lines| - 1), lines[|lines| - 1], timeout)
  }

  lemma FeedStep(p: Progress, lines: seq<string>, rounds: seq<Round>, timeout: int, i: nat)
    requires i < |lines|
    ensures Feed(p, lines[..i + 1], rounds, timeout)
            == SendOne(Feed(p, lines[..i], rounds, timeout), RoundAt(rounds, i), lines[i], timeout)
  {
    assert lines[..i + 1][..i] == lines[..i];
  }

  /** The loop writes a prefix of the lines after what was already written, all of them
      unless an exception escaped. */
  lemma {:induction false} FeedSent(p: Progress, lines: seq<string>, rounds: seq<Round>, timeout: int)
    requires !p.crashed
    ensures var r := Feed(p, lines, rounds, timeout);
      && |p.sent| <= |r.sent| <= |p.sent| + |lines|
      && r.sent == p.sent + lines[..|r.sent| - |p.sent|]
      && (!r.crashed ==> r.sent == p.sent + lines)
  {
    if lines != [] {
      var q := lines[..|lines| - 1];
      FeedSent(p, q, rounds, timeout);
      var r := Feed(p, q, rounds, timeout);
      assert q[..|r.sent| - |p.sent|] == lines[..|r.sent| - |p.sent|];
      if !r.crashed {
        assert r.sent + [lines[|lines| - 1]] == p.sent + lines;
      }
    }
  }

  /** Once an exception has escaped, the loop is over: later lines change nothing. */
  lemma {:induction false} FeedCrashed(p: Progress, lines: seq<string>, rounds: seq<Round>, timeout: int, i: nat)
    requires i <= |lines| && Feed(p, lines[..i], rounds, timeout).crashed
    ensures Feed(p, lines, rounds, timeout) == Feed(p, lines[..i], rounds, timeout)
    decreases |lines|
  {
    if i < |lines| {
      var q := lines[..|lines| - 1];
      assert q[..i] == lines[..i];
      FeedCrashed(p, q, rounds, timeout, i);
    } else {
      assert lines[..i] == lines;
    }
  }

  /** After the liveness test has closed the socket, the next line's `sendall` raises:
      nothing after that line is written and the loop ends in an exception. */
  lemma CloseThenCrash(p: Progress, lines: seq<string>, rounds: seq<Round>, timeout: int, k: nat)
    requires k + 1 < |lines|
    requires var q := Feed(p, lines[..k + 1], rounds, timeout);
      !q.crashed && q.heart.sock == Closed && !q.heart.finished
    ensures Feed(p, lines, rounds, timeout).crashed
    ensures Feed(p, lines, rounds, timeout).sent == Feed(p, lines[..k + 1], rounds, timeout).sent
  {
    var q := Feed(p, lines[..k + 1], rounds, timeout);
    FeedStep(p, lines, rounds, timeout, k + 1);
    RunBeatsKeeps(q.heart, RoundAt(rounds, k + 1).beats, timeout);
    FeedCrashed(p, lines, rounds, timeout, k + 2);
  }

  /** A concrete run: the server stays silent, one probe carries `missed` from -1 to 0
      before the first of two lines is checked, the test closes the socket, and the second
      line's `sendall` raises. Only the first line is written. */
  lemma LostThenCrashExample(h: HeartState, greeting: string, a: string, b: string, timeout: int)
    requires !h.finished && h.recvRunning && h.sendRunning && h.sock == Open && h.missed == -1
    requires IsAscii(a) && IsAscii(b)
    ensures var rounds := [Round([Tick(h.timestamp + timeout + 1, false)], false), Round([], false)];
      var r := Feed(Progress(h, [greeting], false), [a, b], rounds, timeout);
      r.crashed && r.sent == [greeting, a]
  {
    var rounds := [Round([Tick(h.timestamp + timeout + 1, false)], false), Round([], false)];
    var p := Progress(h, [greeting], false);
    var beats := [Tick(h.timestamp + timeout + 1, false)];
    assert RunBeats(h, beats, timeout) == Step(h, beats[0], timeout);
    assert [a, b][..1] == [a];
    FeedStep(p, [a, b], rounds, timeout, 0);
    FeedStep(p, [a, b], rounds, timeout, 1);
    assert [a, b][..2] == [a, b];
  }

  /** How the legacy `send_data` ended. */
  datatype Outcome =
    | Refused   // `connect` raised ConnectionRefusedError: early return
    | Crashed   // an exception escaped `send_data`
    | Rejected  // the reply was not ACCEPTED
    | Completed // the loop ran over the whole stream

  class Client {
    const user: string
    const password: string
    const stream: seq<string>
    const timeout: int
    const initialMissed: int
    var missed: int
    var timestamp: int
    var finished: bool
    var sock: Sock
    var recvRunning: bool
    var sendRunning: bool
    var timeouts: nat
    var echoes: nat
    var sent: seq<string> // what `send_data` wrote to the socket, in order

    /** `missed` is its initial value plus the probes counted minus the echoes counted. */
    ghost predicate Valid()
      reads this
    {
      missed == initialMissed + timeouts - echoes
    }

    function Heart(): HeartState
      reads this
    {
      HeartState(missed, timestamp, finished, sock, recvRunning, sendRunning, timeouts, echoes)
    }

    /** `Client(ip, port, user, password, num=30, per_second=1, timeout=1, missed=-3)`,
        with the data stream already drawn. */
    constructor(user: string, password: string, stream: seq<string>, timeout: int := 1, missed: int := -3)
      ensures Valid()
      ensures this.user == user && this.password == password && this.stream == stream
      ensures this.timeout == timeout && initialMissed == missed
      ensures Heart() == HeartState(missed, 0, false, Unconnected, false, false, 0, 0)
      ensures sent == []
    {
      this.user := user;
      this.password := password;
      this.stream := stream;
      this.timeout := timeout;
      initialMissed := missed;
      this.missed := missed;
      timestamp := 0;
      finished := false;
      sock := Unconnected;
      recvRunning := false;
      sendRunning := false;
      timeouts := 0;
      echoes := 0;
      sent := [];
    }

    /** One pass of `recv_keep_alive` (or its exit). */
    method RecvKeepAlive(response: Option<string>, now: int)
      requires Valid()
      modifies this`missed, this`timestamp, this`sock, this`recvRunning, this`echoes
      ensures Valid()
      ensures Heart() == Step(old(Heart()), Receive(response, now), timeout)
    {
      if !recvRunning {
        return;
      }
      if !(!finished || missed < 0) {
        recvRunning, sock := false, Closed;
        return;
      }
      if response.None? || sock == Closed || !IsAscii(response.value) {
        recvRunning := false;
        return;
      }
      if StripStr(response.value) == KEEP_ALIVE {
        missed := missed - 1;
        timestamp := now;
        echoes := echoes + 1;
      }
    }

    /** One pass of `send_keep_alive` (or its exit). */
    method SendKeepAlive(now: int, fails: bool)
      requires Valid()
      modifies this`missed, this`timestamp, this`sock, this`sendRunning, this`timeouts
      ensures Valid()
      ensures Heart() == Step(old(Heart()), Tick(now, fails), timeout)
    {
      if !sendRunning {
        return;
      }
      if !(!finished || missed < 0) {
        sendRunning, sock := false, Closed;
        return;
      }
      if now - timestamp > timeout {
        missed := missed + 1;
        timestamp := now;
        timeouts := timeouts + 1;
        if fails || sock == Closed {
          sendRunning := false;
        }
      }
    }

    /** The heartbeat passes scheduled before one send, in order. */
    method Beats(bs: seq<Beat>)
      requires Valid()
      modifies this`missed, this`timestamp, this`sock, this`recvRunning, this`sendRunning, this`timeouts, this`echoes
      ensures Valid()
      ensures Heart() == RunBeats(old(Heart()), bs, timeout)
    {
      var i := 0;
      while i < |bs|
        invariant i <= |bs| && Valid()
        invariant Heart() == RunBeats(old(Heart()), bs[..i], timeout)
      {
        assert bs[..i + 1][..i] == bs[..i];
        match bs[i] {
          case Receive(response, now) => RecvKeepAlive(response, now);
          case Tick(now, fails) => SendKeepAlive(now, fails);
        }
        i := i + 1;
      }
      assert bs[..i] == bs;
    }

    /** `send_data`: connect, greet, and on ACCEPTED start the heartbeat threads and run
        the data loop; `finished` is set only when no exception escaped. */
    method SendData(connectOk: bool, reply: string, rounds: seq<Round>) returns (outcome: Outcome)
      requires Valid()
      requires Heart() == HeartState(initialMissed, 0, false, Unconnected, false, false, 0, 0)
      requires sent == []
      modifies this`missed, this`timestamp, this`finished, this`sock, this`recvRunning, this`sendRunning,
               this`timeouts, this`echoes, this`sent
      ensures Valid()
      ensures outcome == Refused <==> !connectOk
      ensures finished <==> outcome == Rejected || outcome == Completed
      ensures sock == Closed
      ensures connectOk && !IsAscii(Greeting(user, password)) ==> outcome == Crashed && sent == []
      ensures !(connectOk && IsAscii(Greeting(user, password)) && IsAscii(reply) && IsAcceptance(reply)) ==>
        Heart() == old(Heart()).(sock := Closed, finished := outcome == Rejected)
      ensures connectOk && IsAscii(Greeting(user, password)) && !IsAscii(reply) ==>
        outcome == Crashed && sent == [Greeting(user, password)]
      ensures connectOk && IsAscii(Greeting(user, password)) && IsAscii(reply) && !IsAcceptance(reply) ==>
        outcome == Rejected && sent == [Greeting(user, password)]
      ensures connectOk && IsAscii(Greeting(user, password)) && IsAscii(reply) && IsAcceptance(reply) ==>
        var r := Feed(Progress(Started(old(Heart())), [Greeting(user, password)], false), stream, rounds, timeout);
        && (outcome == Crashed <==> r.crashed)
        && sent == r.sent
        && Heart() == r.heart.(sock := Closed, finished := !r.crashed)
    {
      if !connectOk {
        sock := Closed;
        return Refused;
      }
      sock := Open;
      var greeting := Greeting(user, password);
      if !IsAscii(greeting) {
        sock := Closed;
        return Crashed;
      }
      sent := sent + [greeting];
      if !IsAscii(reply) {
        sock := Closed;
        return Crashed;
      }
      if StripStr(reply) != ACCEPTED {
        sock := Closed;
        finished := true;
        return Rejected;
      }
      recvRunning, sendRunning := true, true;
      assert Heart() == Started(old(Heart())) && sent == [greeting];
      var crashed := StreamData(rounds);
      sock := Closed;
      if crashed {
        return Crashed;
      }
      finished := true;
      outcome := Completed;
    }

    /** The `for data in data_stream(...)` loop, as `Feed` describes it. */
    method StreamData(rounds: seq<Round>) returns (crashed: bool)
      requires Valid() && !finished
      modifies this`missed, this`timestamp, this`sock, this`recvRunning, this`sendRunning,
               this`timeouts, this`echoes, this`sent
      ensures Valid()
      ensures Progress(Heart(), sent, crashed) == Feed(Progress(old(Heart()), old(sent), false), stream, rounds, timeout)
    {
      ghost var start := Progress(Heart(), sent, false);
      var i := 0;
      while i < |stream|
        invariant i <= |stream| && Valid()
        invariant Progress(Heart(), sent, false) == Feed(start, stream[..i], rounds, timeout)
      {
        FeedStep(start, stream, rounds, timeout, i);
        var lineCrashed := SendLine(RoundAt(rounds, i), stream[i]);
        if lineCrashed {
          FeedCrashed(start, stream, rounds, timeout, i + 1);
          return true;
        }
        i := i + 1;
      }
      assert stream[..i] == stream;
      crashed := false;
    }

    /** One turn of the data loop, as `SendOne` describes it. */
    method SendLine(round: Round, data: string) returns (crashed: bool)
      requires Valid() && !finished
      modifies this`missed, this`timestamp, this`sock, this`recvRunning, this`sendRunning,
               this`timeouts, this`echoes, this`sent
      ensures Valid() && !finished
      ensures Progress(Heart(), sent, crashed) == SendOne(Progress(old(Heart()), old(sent), false), round, data, timeout)
    {
      Beats(round.beats);
      if !IsAscii(data) || round.sendFails || sock == Closed {
        return true;
      }
      sent := sent + [data];
      if missed == 0 {
        sock := Closed;
      }
      crashed := false;
    }
  }
}
