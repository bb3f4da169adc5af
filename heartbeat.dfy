/** The state the two heartbeat threads of a load-testing client share with its data loop,
    the passes of those threads as the environment schedules them, and the liveness test
    the data loop applies to it. Both client versions use these. */
module Heartbeat {
  import opened Protocol

  /** The client's socket. */
  datatype Sock = Unconnected | Open | Closed

  /** The client fields the heartbeat threads and the data loop share, with two model
      counters: the probes the send thread has counted as missed (`timeouts`) and the
      echoes the receive thread has counted back (`echoes`). */
  datatype HeartState = HeartState(
    missed: int,
    timestamp: int,
    finished: bool,
    sock: Sock,
    recvRunning: bool,
    sendRunning: bool,
    timeouts: nat,
    echoes: nat)

  /** The condition both heartbeat loops test: `not finished or missed < 0`. */
  predicate Alive(h: HeartState)
  {
    !h.finished || h.missed < 0
  }

  /** One pass of a heartbeat loop, as the environment schedules it. */
  datatype Beat =
    | Receive(response: Option<string>, now: int) // `recv` returned bytes, or None when it raised OSError
    | Tick(now: int, fails: bool)                 // `fails`: the probe's `sendall` raises OSError

  /** What the environment does around the send of one data line: the heartbeat passes
      that run before it, and whether its `sendall` raises OSError. */
  datatype Round = Round(beats: seq<Beat>, sendFails: bool)

  /** The round of the i-th line; lines past the schedule meet no beats and no failure. */
  function RoundAt(rounds: seq<Round>, i: nat): Round
  {
    if i < |rounds| then rounds[i] else Round([], false)
  }

  /** The liveness test after each data line, as the source intends it: the server has
      left three probes unanswered once `missed`, started at -3, is no longer negative. */
  predicate LivenessLost(missed: int)
  {
    missed >= 0
  }

  /** The liveness test as written: `self.missed == 0`. */
  predicate LivenessLostAsWritten(missed: int)
  {
    missed == 0
  }

  /** Which liveness test a data loop applies after each line it sends. */
  datatype Liveness = AsWritten | Intended

  predicate Fires(test: Liveness, missed: int)
  {
    match test
    case AsWritten => LivenessLostAsWritten(missed)
    case Intended => LivenessLost(missed)
  }

  /** The heartbeat state once `t1` and `t2` are started on the open socket. */
  function Started(h: HeartState): HeartState
  {
    h.(sock := Open, recvRunning := true, sendRunning := true)
  }
}
