/** The first telemetry server (server/server.py): the same greeting and registry as the
    queued server, but no FINISHED frame, no record check, and the session stored by the
    handler itself when it finishes.

    Reads are given as the sequence of lines `readline` returns; past its end every read
    is empty, as after EOF. */
module LegacyServer {
  import opened Text
  import opened Protocol

  /** How the legacy `_process_data` treats one line. */
  datatype LineKind =
    | Probe       // strips to "100": echoed back
    | Event       // anything else, FINISHED and malformed lines included: counted and stored
    | Undecodable // not ASCII: `decode("ascii")` raises

  function Classify(line: string): LineKind
  {
    if !IsAscii(line) then Undecodable
    else if StripStr(line) == KEEP_ALIVE then Probe
    else Event
  }

  /** A read after which the loop reads no more: empty (EOF) or one that raises. */
  predicate EndsLoop(line: string)
  {
    line == "" || Classify(line).Undecodable?
  }

  /** How many lines the read loop processes before it stops. */
  function Cut(lines: seq<string>): (k: nat)
    ensures k <= |lines|
    ensures forall i :: 0 <= i < k ==> !EndsLoop(lines[i])
    ensures k < |lines| ==> EndsLoop(lines[k])
  {
    if lines == [] || EndsLoop(lines[0]) then 0
    else
      var k := 1 + Cut(lines[1..]);
      assert forall i :: 1 <= i < k ==> lines[i] == lines[1..][i - 1];
      k
  }

  /** The lines of `p` that are counted and stored: every one that is not a probe. */
  function Kept(p: seq<string>): seq<string>
  {
    if p == [] then []
    else Kept(p[..|p| - 1]) + (if Classify(p[|p| - 1]).Event? then [p[|p| - 1]] else [])
  }

  /** Number of lines of `p` that are keep-alive probes. */
  function Probes(p: seq<string>): nat
  {
    if p == [] then 0
    else Probes(p[..|p| - 1]) + (if Classify(p[|p| - 1]).Probe? then 1 else 0)
  }

  /** The per-session fields the read loop changes. */
  datatype SessionState = SessionState(counter: nat, blob: string, replies: seq<string>)

  /** A session just after a successful login. */
  function Opened(): SessionState
  {
    SessionState(0, [], [Frame(ACCEPTED)])
  }

  /** The effect of the legacy `_process_data` on one line; a line that raises changes nothing. */
  function Apply(s: SessionState, line: string): SessionState
  {
    match Classify(line)
    case Probe => s.(replies := s.replies + [Frame(KEEP_ALIVE)])
    case Event => s.(counter := s.counter + 1, blob := s.blob + line)
    case Undecodable => s
  }

  /** `_process_data` applied to each line of `p` in turn. */
  function Run(s: SessionState, p: seq<string>): SessionState
  {
    if p == [] then s else Apply(Run(s, p[..|p| - 1]), p[|p| - 1])
  }

  /** Why `handle` returned. */
  datatype Exit =
    | GreetingUndecodable
    | Rejected
    | Eof
    | DataUndecodable

  function LoopExit(lines: seq<string>): (e: Exit)
    ensures e == Eof || e == DataUndecodable
  {
    var k := Cut(lines);
    if k == |lines| || lines[k] == "" then Eof else DataUndecodable
  }

  /** A row of the session store: `add_session(username, blob)`. */
  datatype Session = Session(user: string, blob: string)

  /** The rejection written when the user is already online. */
  const ALREADY_ONLINE: string := "Such user allready logged in\n"

  /** The server object shared by all handlers. */
  class Server {
    var usersOnline: set<string>
    var store: seq<Session>
    const hashes: map<string, string>
    const checkPassword: (string, string) -> bool

    constructor(hashes: map<string, string>, checkPassword: (string, string) -> bool)
      ensures usersOnline == {} && store == []
      ensures this.hashes == hashes && this.checkPassword == checkPassword
    {
      usersOnline := {};
      store := [];
      this.hashes := hashes;
      this.checkPassword := checkPassword;
    }
  }

  /** The request handler of one connection. */
  class Handler {
    const server: Server
    var username: Option<string>
    var auth: bool
    var counter: nat
    var blob: string
    var replies: seq<string>

    ghost predicate Valid()
      reads this
    {
      auth ==> username.Some?
    }

    constructor(server: Server)
      ensures this.server == server && Valid()
      ensures username == None && !auth && counter == 0 && blob == [] && replies == []
    {
      this.server := server;
      username := None;
      auth := false;
      counter := 0;
      blob := [];
      replies := [];
    }

    function State(): SessionState
      reads this
    {
      SessionState(counter, blob, replies)
    }

    /** `_auth` on the stripped, decoded greeting. */
    method Auth(greeting: string) returns (ok: bool)
      requires Valid()
      modifies this`username, this`auth, this`replies, server`usersOnline
      ensures Valid()
      ensures var r := Authenticate(greeting, old(server.usersOnline), server.hashes, server.checkPassword);
        && ok == r.Accepted?
        && username == (if r.Malformed? then old(username) else Some(r.user))
        && auth == (old(auth) || ok)
        && server.usersOnline == (if ok then old(server.usersOnline) + {r.user} else old(server.usersOnline))
        && replies == old(replies) + (if r.AlreadyOnline? then [ALREADY_ONLINE] else [])
    {
      var parsed := ParseGreeting(greeting);
      if parsed.None? {
        return false;
      }
      var (user, password) := parsed.value;
      username := Some(user);
      if user in server.usersOnline {
        replies := replies + [ALREADY_ONLINE];
        return false;
      }
      if user !in server.hashes {
        return false;
      }
      if server.checkPassword(server.hashes[user], password) {
        auth := true;
        server.usersOnline := server.usersOnline + {user};
        return true;
      }
      return false;
    }

    /** `_process_data` on one non-empty line; `raised` when the line is not ASCII. */
    method ProcessData(data: string) returns (raised: bool)
      modifies this`counter, this`blob, this`replies
      ensures raised <==> Classify(data).Undecodable?
      ensures State() == Apply(old(State()), data)
    {
      if !IsAscii(data) {
        return true;
      }
      if StripStr(data) == KEEP_ALIVE {
        replies := replies + [Frame(KEEP_ALIVE)];
      } else {
        counter := counter + 1;
        blob := blob + data;
      }
      return false;
    }

    /** `handle`: authenticate the greeting line `raw`, process the lines read until EOF
        or a line that raises, and take the user off the registry. */
    method Handle(raw: string, lines: seq<string>) returns (exit: Exit)
      modifies this`username, this`auth, this`counter, this`blob, this`replies, server`usersOnline
      ensures Valid()
      ensures server.usersOnline == old(server.usersOnline)
      ensures exit == GreetingUndecodable <==> !IsAscii(StripBytes(raw))
      ensures IsAscii(StripBytes(raw)) ==>
        var r := Authenticate(StripBytes(raw), old(server.usersOnline), server.hashes, server.checkPassword);
        && (exit == Rejected <==> !r.Accepted?)
        && (r.Malformed? ==> username == None)
        && (!r.Malformed? ==> username == Some(r.user))
        && (exit == Rejected ==> replies == if r.AlreadyOnline? then [ALREADY_ONLINE] else [])
      ensures exit == GreetingUndecodable ==> replies == [] && username == None
      ensures exit == GreetingUndecodable || exit == Rejected ==> !auth && counter == 0 && blob == []
      ensures auth <==> exit != GreetingUndecodable && exit != Rejected
      ensures auth ==>
        && exit == LoopExit(lines)
        && State() == Run(Opened(), lines[..Cut(lines)])
    {
      username, auth, counter, blob, replies := None, false, 0, [], [];
      var greeting := StripBytes(raw);
      if !IsAscii(greeting) {
        return GreetingUndecodable;
      }
      var ok := Auth(greeting);
      if !ok {
        return Rejected;
      }
      assert replies == [];
      replies := replies + [Frame(ACCEPTED)];
      assert State() == Opened();
      var user := username.value;
      exit := ReadLoop(lines);
      // As in the queued server, the removal runs on every exit path here, while the
      // source skips it when `_process_data` raises.
      server.usersOnline := server.usersOnline - {user};
    }

    /** The `while True` read loop of `handle`. */
    method ReadLoop(lines: seq<string>) returns (exit: Exit)
      modifies this`counter, this`blob, this`replies
      ensures exit == LoopExit(lines)
      ensures State() == Run(old(State()), lines[..Cut(lines)])
    {
      ghost var start := State();
      var i := 0;
      while true
        invariant i <= Cut(lines)
        invariant State() == Run(start, lines[..i])
        decreases |lines| - i
      {
        if i == |lines| || lines[i] == "" {
          return Eof;
        }
        var data := lines[i];
        RunStep(start, lines, i);
        var raised := ProcessData(data);
        if raised {
          assert State() == Run(start, lines[..i]);
          return DataUndecodable;
        }
        CutPasses(lines, i);
        i := i + 1;
      }
    }

    /** `finish`: store the session directly if it was authenticated and counted events. */
    method Finish()
      requires Valid()
      modifies server`store
      ensures server.store == old(server.store) +
        (if auth && counter > 0 then [Session(username.value, blob)] else [])
    {
      if auth && counter > 0 {
        server.store := server.store + [Session(username.value, blob)];
      }
    }
  }

  lemma CutPasses(lines: seq<string>, i: nat)
    requires i <= Cut(lines) && i < |lines|
    requires !EndsLoop(lines[i])
    ensures i + 1 <= Cut(lines)
  {
  }

  lemma RunStep(s: SessionState, lines: seq<string>, i: nat)
    requires i < |lines|
    ensures Run(s, lines[..i + 1]) == Apply(Run(s, lines[..i]), lines[i])
  {
    assert lines[..i + 1][..i] == lines[..i];
  }

  /** Folding the legacy `_process_data` over a decodable stream counts every line that is
      not a probe and appends each of them, verbatim and in order, to the blob. */
  lemma {:induction false} RunKept(s: SessionState, p: seq<string>)
    ensures Run(s, p).counter == s.counter + |Kept(p)|
    ensures Run(s, p).blob == s.blob + Concat(Kept(p))
  {
    if p == [] {
      assert s.blob + [] == s.blob;
    } else {
      var q := p[..|p| - 1];
      var x := p[|p| - 1];
      RunKept(s, q);
      var r := Run(s, q);
      assert Run(s, p) == Apply(r, x);
      if Classify(x).Event? {
        assert Kept(p) == Kept(q) + [x];
        ConcatAppend(Kept(q), [x]);
        assert [x][..0] == [];
        assert Concat(Kept(p)) == Concat(Kept(q)) + x;
        assert (s.blob + Concat(Kept(q))) + x == s.blob + (Concat(Kept(q)) + x);
      } else {
        assert Kept(p) == Kept(q) + [];
        assert Kept(q) + [] == Kept(q);
      }
    }
  }

  /** Folding the legacy `_process_data` over a stream writes one KEEP_ALIVE frame per probe. */
  lemma {:induction false} RunReplies(s: SessionState, p: seq<string>)
    ensures Run(s, p).replies == s.replies + Repeat(Frame(KEEP_ALIVE), Probes(p))
  {
    if p == [] {
      assert s.replies + [] == s.replies;
    } else {
      var q := p[..|p| - 1];
      RunReplies(s, q);
      var n := Probes(q);
      if Classify(p[|p| - 1]).Probe? {
        assert Repeat(Frame(KEEP_ALIVE), n + 1) == Repeat(Frame(KEEP_ALIVE), n) + [Frame(KEEP_ALIVE)];
      }
    }
  }

  /** Without probes, every decodable line is kept: the blob is the stream itself. */
  lemma {:induction false} KeptAll(p: seq<string>)
    requires forall i :: 0 <= i < |p| ==> Classify(p[i]).Event?
    ensures Kept(p) == p
  {
    if p != [] {
      KeptAll(p[..|p| - 1]);
      assert p[..|p| - 1] + [p[|p| - 1]] == p;
    }
  }

  /** The registry after `handle` returns, as written, for a session that logged `user`
      in: the removal after the read loop is skipped when `_process_data` raises. */
  function OnlineAfterAsWritten(online: set<string>, user: string, exit: Exit): set<string>
  {
    if exit == DataUndecodable then online else online - {user}
  }

  /** As written, one non-ASCII data line ends the loop by an exception, leaves the user
      registered, and the next login of that user is rejected as already online. */
  lemma LockedOutAsWritten(before: set<string>, user: string, password: string,
                           hashes: map<string, string>, checkPassword: (string, string) -> bool)
    requires ':' !in user && ':' !in password
    requires '\n' !in user && '\n' !in password
    requires user == [] || !IsByteSpace(user[0])
    requires password == [] || !IsByteSpace(password[|password| - 1])
    ensures var bad := [0xFF as char, '\n'];
      var after := OnlineAfterAsWritten(before + {user}, user, LoopExit([bad]));
      && LoopExit([bad]) == DataUndecodable
      && user in after
      && Authenticate(StripBytes(Greeting(user, password)), after, hashes, checkPassword) == AlreadyOnline(user)
  {
    var bad := [0xFF as char, '\n'];
    assert !IsAscii(bad) by { assert bad[0] as int >= 128; }
    assert Cut([bad]) == 0;
    var after := OnlineAfterAsWritten(before + {user}, user, LoopExit([bad]));
    AuthenticateClientGreeting(user, password, after, hashes, checkPassword);
  }

  /** FINISHED means nothing to this server: a "500" line is counted and stored like data. */
  lemma FinishedIsData()
    ensures Classify(Frame(FINISHED)) == Event
    ensures Apply(Opened(), Frame(FINISHED)) == SessionState(1, Frame(FINISHED), [Frame(ACCEPTED)])
  {
    StripTrailing(FINISHED, "\n", IsStrSpace);
    assert IsAscii(Frame(FINISHED)) by {
      assert Frame(FINISHED) == ['5', '0', '0', '\n'];
    }
  }
}
