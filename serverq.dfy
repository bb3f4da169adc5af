/** The queued telemetry server (server/serverq.py): one `Handler` per accepted
    connection, sharing a `Server` that holds the users online, the FIFO queue of
    finished sessions and the durable session store the writer thread fills.

    Reads are given as the sequence of lines `readline` returns; past its end every
    read is empty, as after EOF. */
module ServerQ {
  import opened Text
  import opened Protocol

  /** How `_process_data` treats one line read from the client. */
  datatype LineKind =
    | KeepAliveLine           // strips to "100": echoed back
    | FinishedLine            // strips to "500": ends the session
    | EventLine(stored: bool) // anything else: counted, and appended to the blob if it is a record
    | Undecodable             // not ASCII: `decode("ascii")` raises

  function Classify(line: string): LineKind
  {
    if !IsAscii(line) then Undecodable
    else if StripStr(line) == KEEP_ALIVE then KeepAliveLine
    else if StripStr(line) == FINISHED then FinishedLine
    else EventLine(IsRecord(line))
  }

  /** A line is stored only if it is a record, and an ASCII line holding ';' is always
      counted as an event, never taken for a code. */
  lemma ClassifyRecord(line: string)
    ensures Classify(line).Undecodable? <==> !IsAscii(line)
    ensures Classify(line) == EventLine(true) ==> IsRecord(line)
    ensures IsAscii(line) && ';' in line ==> Classify(line) == EventLine(IsRecord(line))
  {
    if ';' in line {
      RecordIsNotCode(line, KEEP_ALIVE);
      RecordIsNotCode(line, FINISHED);
    }
  }

  /** A read after which the loop reads no more: empty (EOF), FINISHED, or one that raises. */
  predicate EndsLoop(line: string)
  {
    line == "" || Classify(line).FinishedLine? || Classify(line).Undecodable?
  }

  /** How many lines the read loop processes before it stops. */
  function Cut(lines: seq<string>): (k: nat)
    ensures k <= |lines|
    ensures forall i :: 0 <= i < k ==> !EndsLoop(lines[i])
    ensures k < |lines| ==> EndsLoop(lines[k])
  {
    if lines == [] || EndsLoop(lines[0]) then 0
    else
      var k := 1 + Cut(lines[1..]);
      assert forall i :: 1 <= i < k ==> lines[i] == lines[1..][i - 1];
      k
  }

  /** Number of lines of `p` that `_process_data` counts as events. */
  function EventCount(p: seq<string>): nat
  {
    if p == [] then 0
    else EventCount(p[..|p| - 1]) + (if Classify(p[|p| - 1]).EventLine? then 1 else 0)
  }

  /** The lines of `p` that `_process_data` appends to the blob, in order. */
  function Stored(p: seq<string>): seq<string>
  {
    if p == [] then []
    else Stored(p[..|p| - 1]) + (if Classify(p[|p| - 1]) == EventLine(true) then [p[|p| - 1]] else [])
  }

  /** Number of lines of `p` that are keep-alive probes. */
  function Probes(p: seq<string>): nat
  {
    if p == [] then 0
    else Probes(p[..|p| - 1]) + (if Classify(p[|p| - 1]).KeepAliveLine? then 1 else 0)
  }

  /** Why `handle` returned. */
  datatype Exit =
    | GreetingUndecodable // the greeting is not ASCII: `decode` raises before `_auth`
    | Rejected            // `_auth` returned False
    | Eof                 // an empty read
    | FinishedFrame       // the client sent FINISHED
    | DataUndecodable     // `_process_data` raised on a non-ASCII line

  /** How the read loop over `lines` ends. */
  function LoopExit(lines: seq<string>): (e: Exit)
    ensures e == Eof || e == FinishedFrame || e == DataUndecodable
  {
    var k := Cut(lines);
    if k == |lines| || lines[k] == "" then Eof
    else if Classify(lines[k]).FinishedLine? then FinishedFrame
    else DataUndecodable
  }

  /** The per-session fields of a handler that the read loop changes: the number of
      events counted, the blob of stored records, the finished flag, and every line
      written back to the client. */
  datatype SessionState = SessionState(counter: nat, blob: string, finished: bool, replies: seq<string>)

  /** A session just after a successful login: nothing counted, ACCEPTED written. */
  function Opened(): SessionState
  {
    SessionState(0, [], false, [Frame(ACCEPTED)])
  }

  /** The effect of `_process_data` on one line; a line that raises changes nothing. */
  function Apply(s: SessionState, line: string): SessionState
  {
    match Classify(line)
    case KeepAliveLine => s.(replies := s.replies + [Frame(KEEP_ALIVE)])
    case FinishedLine => s.(finished := true)
    case EventLine(stored) => s.(counter := s.counter + 1, blob := if stored then s.blob + line else s.blob)
    case Undecodable => s
  }

  /** `_process_data` applied to each line of `p` in turn. */
  function Run(s: SessionState, p: seq<string>): SessionState
  {
    if p == [] then s else Apply(Run(s, p[..|p| - 1]), p[|p| - 1])
  }

  /** The lines the read loop hands to `_process_data` without it raising: those before
      the line that ends the loop, and that line too when it is FINISHED. */
  function Consumed(lines: seq<string>): (c: seq<string>)
    ensures c <= lines
    ensures |c| == Cut(lines) || (|c| == Cut(lines) + 1 && Classify(lines[Cut(lines)]).FinishedLine?)
  {
    var k := Cut(lines);
    if k < |lines| && Classify(lines[k]).FinishedLine? then lines[..k + 1] else lines[..k]
  }

  /** What the handler puts on the queue when a session ends. */
  datatype Entry = Entry(user: string, counter: nat, blob: string)

  /** A row of the durable session store: `add_session(username, blob)`. */
  datatype Session = Session(user: string, blob: string)

  function Sessions(entries: seq<Entry>): (r: seq<Session>)
    ensures |r| == |entries|
    ensures forall i :: 0 <= i < |entries| ==> r[i] == Session(entries[i].user, entries[i].blob)
  {
    if entries == [] then []
    else [Session(entries[0].user, entries[0].blob)] + Sessions(entries[1..])
  }

  /** The rejection written when the user is already online. */
  const ALREADY_ONLINE: string := "[Handler] Such user allready logged in\n"

  /** The server object shared by all handlers. */
  class Server {
    var usersOnline: set<string>
    var queue: seq<Entry>   // db_write_queue, head first
    var store: seq<Session> // the session store, append-only
    const hashes: map<string, string>
    const checkPassword: (string, string) -> bool

    constructor(hashes: map<string, string>, checkPassword: (string, string) -> bool)
      ensures usersOnline == {} && queue == [] && store == []
      ensures this.hashes == hashes && this.checkPassword == checkPassword
    {
      usersOnline := {};
      queue := [];
      store := [];
      this.hashes := hashes;
      this.checkPassword := checkPassword;
    }

    /** `db_write_queue.put_nowait(entry)`: never blocks, never touches the store. */
    method Enqueue(entry: Entry)
      modifies this`queue
      ensures queue == old(queue) + [entry]
    {
      queue := queue + [entry];
    }

    /** One pass of the `db_writer` loop: take the oldest entry, if any, and store it. */
    method WriterStep() returns (wrote: bool)
      modifies this`queue, this`store
      ensures wrote <==> old(queue) != []
      ensures wrote ==> queue == old(queue)[1..] && store == old(store) + [Session(old(queue)[0].user, old(queue)[0].blob)]
      ensures !wrote ==> queue == old(queue) && store == old(store)
    {
      if queue == [] {
        return false;
      }
      var entry := queue[0];
      queue := queue[1..];
      store := store + [Session(entry.user, entry.blob)];
      return true;
    }

    /** The writer run until the queue is empty: every queued session is stored once,
        in the order it was queued. */
    method Drain()
      modifies this`queue, this`store
      ensures queue == []
      ensures store == old(store) + Sessions(old(queue))
    {
      ghost var taken: seq<Entry> := [];
      while queue != []
        invariant old(queue) == taken + queue
        invariant store == old(store) + Sessions(taken)
        decreases |queue|
      {
        ghost var head := queue[0];
        var _ := WriterStep();
        SessionsAppend(taken, [head]);
        taken := taken + [head];
      }
      assert taken == old(queue);
    }
  }

  lemma {:induction false} SessionsAppend(a: seq<Entry>, b: seq<Entry>)
    ensures Sessions(a + b) == Sessions(a) + Sessions(b)
  {
    assert |Sessions(a + b)| == |Sessions(a) + Sessions(b)|;
    forall i | 0 <= i < |a + b| ensures Sessions(a + b)[i] == (Sessions(a) + Sessions(b))[i] {
      if i < |a| { assert (a + b)[i] == a[i]; } else { assert (a + b)[i] == b[i - |a|]; }
    }
  }

  /** The request handler of one connection. */
  class Handler {
    const server: Server
    var username: Option<string>
    var auth: bool
    var counter: nat
    var blob: string
    var finished: bool
    var replies: seq<string> // every line written to the client, in order

    ghost predicate Valid()
      reads this
    {
      auth ==> username.Some?
    }

    constructor(server: Server)
      ensures this.server == server && Valid()
      ensures username == None && !auth && counter == 0 && blob == [] && !finished && replies == []
    {
      this.server := server;
      username := None;
      auth := false;
      counter := 0;
      blob := [];
      finished := false;
      replies := [];
    }

    /** `_auth` on the stripped, decoded greeting. */
    method Auth(greeting: string) returns (ok: bool)
      requires Valid()
      modifies this`username, this`auth, this`replies, server`usersOnline
      ensures Valid()
      ensures var r := Authenticate(greeting, old(server.usersOnline), server.hashes, server.checkPassword);
        && ok == r.Accepted?
        && username == (if r.Malformed? then old(username) else Some(r.user))
        && auth == (old(auth) || ok)
        && server.usersOnline == (if ok then old(server.usersOnline) + {r.user} else old(server.usersOnline))
        && replies == old(replies) + (if r.AlreadyOnline? then [ALREADY_ONLINE] else [])
    {
      var parsed := ParseGreeting(greeting);
      if parsed.None? {
        return false;
      }
      var (user, password) := parsed.value;
      username := Some(user);
      if user in server.usersOnline {
        replies := replies + [ALREADY_ONLINE];
        return false;
      }
      if user !in server.hashes {
        return false;
      }
      if server.checkPassword(server.hashes[user], password) {
        auth := true;
        server.usersOnline := server.usersOnline + {user};
        return true;
      }
      return false;
    }

    /** The fields `_process_data` and the read loop work on. */
    function State(): SessionState
      reads this
    {
      SessionState(counter, blob, finished, replies)
    }

    /** `_process_data` on one non-empty line; `raised` when the line is not ASCII. */
    method ProcessData(data: string) returns (raised: bool)
      modifies this`counter, this`blob, this`finished, this`replies
      ensures raised <==> Classify(data).Undecodable?
      ensures State() == Apply(old(State()), data)
    {
      if !IsAscii(data) {
        return true;
      }
      var text := StripStr(data);
      if text == KEEP_ALIVE {
        replies := replies + [Frame(KEEP_ALIVE)];
      } else if text == FINISHED {
        finished := true;
      } else {
        counter := counter + 1;
        if |Split(data, ';')| == 3 {
          blob := blob + data;
        }
      }
      return false;
    }

    /** `handle`: authenticate the greeting line `raw`, then process the lines read until
        EOF, FINISHED or a line that raises, and take the user off the registry. */
    method Handle(raw: string, lines: seq<string>) returns (exit: Exit)
      modifies this`username, this`auth, this`counter, this`blob, this`finished, this`replies, server`usersOnline
      ensures Valid()
      ensures server.usersOnline == old(server.usersOnline)
      ensures exit == GreetingUndecodable <==> !IsAscii(StripBytes(raw))
      ensures IsAscii(StripBytes(raw)) ==>
        var r := Authenticate(StripBytes(raw), old(server.usersOnline), server.hashes, server.checkPassword);
        && (exit == Rejected <==> !r.Accepted?)
        && (r.Malformed? ==> username == None)
        && (!r.Malformed? ==> username == Some(r.user))
        && (exit == Rejected ==> replies == if r.AlreadyOnline? then [ALREADY_ONLINE] else [])
      ensures exit == GreetingUndecodable ==> replies == [] && username == None
      ensures exit == GreetingUndecodable || exit == Rejected ==>
        !auth && counter == 0 && blob == [] && !finished
      ensures auth <==> exit != GreetingUndecodable && exit != Rejected
      ensures auth ==>
        && exit == LoopExit(lines)
        && State() == Run(Opened(), Consumed(lines))
    {
      username, auth, counter, blob, finished, replies := None, false, 0, [], false, [];
      var greeting := StripBytes(raw);
      if !IsAscii(greeting) {
        return GreetingUndecodable;
      }
      var ok := Auth(greeting);
      if !ok {
        return Rejected;
      }
      assert replies == [];
      replies := replies + [Frame(ACCEPTED)];
      assert State() == Opened();
      var user := username.value;
      exit := ReadLoop(lines);
      // The removal runs on every exit path: the source skips it when
      // `_process_data` raises (see LockedOutAsWritten in the session model).
      server.usersOnline := server.usersOnline - {user};
    }

    /** The `while not self.finished` read loop of `handle`, from a session not yet finished. */
    method ReadLoop(lines: seq<string>) returns (exit: Exit)
      requires !finished
      modifies this`counter, this`blob, this`finished, this`replies
      ensures exit == LoopExit(lines)
      ensures State() == Run(old(State()), Consumed(lines))
    {
      ghost var start := State();
      var i := 0;
      while !finished
        invariant !finished ==> i <= Cut(lines)
        invariant finished ==> Cut(lines) < |lines| && i == Cut(lines) + 1 && Classify(lines[Cut(lines)]).FinishedLine?
        invariant State() == Run(start, lines[..i])
        decreases |lines| - i, !finished
      {
        if i == |lines| || lines[i] == "" {
          break;
        }
        var data := lines[i];
        RunStep(start, lines, i);
        var raised := ProcessData(data);
        if raised {
          break;
        }
        if !finished {
          CutPasses(lines, i);
        }
        i := i + 1;
      }
      exit := if finished then FinishedFrame else if i < |lines| && lines[i] != "" then DataUndecodable else Eof;
    }

    /** `finish`: hand the session to the writer queue if it was authenticated and counted events. */
    method Finish()
      requires Valid()
      modifies server`queue
      ensures server.queue == old(server.queue) +
        (if auth && counter > 0 then [Entry(username.value, counter, blob)] else [])
    {
      if auth && counter > 0 {
        server.Enqueue(Entry(username.value, counter, blob));
      }
    }
  }

  /** A line that does not end the loop is followed by another read. */
  lemma CutPasses(lines: seq<string>, i: nat)
    requires i <= Cut(lines) && i < |lines|
    requires !EndsLoop(lines[i])
    ensures i + 1 <= Cut(lines)
  {
  }

  lemma RunStep(s: SessionState, lines: seq<string>, i: nat)
    requires i < |lines|
    ensures Run(s, lines[..i + 1]) == Apply(Run(s, lines[..i]), lines[i])
  {
    assert lines[..i + 1][..i] == lines[..i];
  }

  /** Folding `_process_data` over a stream counts exactly its events. */
  lemma {:induction false} RunCounter(s: SessionState, p: seq<string>)
    ensures Run(s, p).counter == s.counter + EventCount(p)
  {
    if p != [] {
      RunCounter(s, p[..|p| - 1]);
    }
  }

  /** Folding `_process_data` over a stream appends exactly its records to the blob, in order. */
  lemma {:induction false} RunBlob(s: SessionState, p: seq<string>)
    ensures Run(s, p).blob == s.blob + Concat(Stored(p))
  {
    if p == [] {
      assert s.blob + [] == s.blob;
    } else {
      var q := p[..|p| - 1];
      var x := p[|p| - 1];
      var y := if Classify(x) == EventLine(true) then x else [];
      calc {
        Run(s, p).blob;
      == { ApplyBlob(Run(s, q), x); }
        Run(s, q).blob + y;
      == { RunBlob(s, q); }
        (s.blob + Concat(Stored(q))) + y;
        s.blob + (Concat(Stored(q)) + y);
      == { var _ := StoredSnoc(q, x); assert q + [x] == p; }
        s.blob + Concat(Stored(p));
      }
    }
  }

  /** `_process_data` appends a line to the blob exactly when it is a record. */
  lemma ApplyBlob(r: SessionState, x: string)
    ensures Apply(r, x).blob == r.blob + (if Classify(x) == EventLine(true) then x else [])
  {
    if Classify(x) != EventLine(true) {
      assert r.blob + [] == r.blob;
    }
  }

  /** What one more line adds to the stored records: itself when it is a record, else nothing. */
  lemma StoredSnoc(q: seq<string>, x: string) returns (y: string)
    ensures y == if Classify(x) == EventLine(true) then x else []
    ensures Concat(Stored(q + [x])) == Concat(Stored(q)) + y
  {
    y := if Classify(x) == EventLine(true) then x else [];
    assert (q + [x])[..|q|] == q;
    if Classify(x) == EventLine(true) {
      assert Stored(q + [x]) == Stored(q) + [x];
      ConcatAppend(Stored(q), [x]);
      assert [x][..0] == [];
    } else {
      assert Stored(q + [x]) == Stored(q) + [];
      assert Stored(q) + [] == Stored(q);
      assert Concat(Stored(q)) + [] == Concat(Stored(q));
    }
  }

  /** Folding `_process_data` over a stream writes one KEEP_ALIVE frame per probe and nothing else. */
  lemma {:induction false} RunReplies(s: SessionState, p: seq<string>)
    ensures Run(s, p).replies == s.replies + Repeat(Frame(KEEP_ALIVE), Probes(p))
  {
    if p == [] {
      assert s.replies + [] == s.replies;
    } else {
      var q := p[..|p| - 1];
      RunReplies(s, q);
      var n := Probes(q);
      if Classify(p[|p| - 1]).KeepAliveLine? {
        assert Repeat(Frame(KEEP_ALIVE), n + 1) == Repeat(Frame(KEEP_ALIVE), n) + [Frame(KEEP_ALIVE)];
      }
    }
  }

  /** Folding `_process_data` over a stream sets `finished` exactly when the stream holds FINISHED. */
  lemma {:induction false} RunFinished(s: SessionState, p: seq<string>)
    ensures Run(s, p).finished <==> s.finished || exists i :: 0 <= i < |p| && Classify(p[i]).FinishedLine?
  {
    if p != [] {
      var q := p[..|p| - 1];
      RunFinished(s, q);
      if exists i :: 0 <= i < |q| && Classify(q[i]).FinishedLine? {
        var i :| 0 <= i < |q| && Classify(q[i]).FinishedLine?;
        assert p[i] == q[i];
      }
      if exists i :: 0 <= i < |p| && Classify(p[i]).FinishedLine? {
        var i :| 0 <= i < |p| && Classify(p[i]).FinishedLine?;
        if i < |q| {
          assert q[i] == p[i];
        }
      }
    }
  }

  /** A fresh session after a clean login reads a stream's events, records and probes,
      and stops at its first FINISHED, EOF or undecodable line. */
  lemma SessionReference(lines: seq<string>)
    ensures var s := Run(Opened(), Consumed(lines));
      && s.counter == EventCount(lines[..Cut(lines)])
      && s.blob == Concat(Stored(lines[..Cut(lines)]))
      && s.replies == [Frame(ACCEPTED)] + Repeat(Frame(KEEP_ALIVE), Probes(lines[..Cut(lines)]))
      && (s.finished <==> LoopExit(lines) == FinishedFrame)
  {
    CutState(lines);
    ConsumedState(lines);
  }

  /** The session after the lines before the one that ends the read loop. */
  lemma CutState(lines: seq<string>)
    ensures var s := Run(Opened(), lines[..Cut(lines)]);
      && s.counter == EventCount(lines[..Cut(lines)])
      && s.blob == Concat(Stored(lines[..Cut(lines)]))
      && s.replies == [Frame(ACCEPTED)] + Repeat(Frame(KEEP_ALIVE), Probes(lines[..Cut(lines)]))
      && !s.finished
  {
    var before := lines[..Cut(lines)];
    RunCounter(Opened(), before);
    RunBlob(Opened(), before);
    RunReplies(Opened(), before);
    NotFinishedBeforeCut(lines);
  }

  /** Processing the FINISHED line that ends the loop only sets `finished`. */
  lemma ConsumedState(lines: seq<string>)
    ensures var s := Run(Opened(), lines[..Cut(lines)]);
      Run(Opened(), Consumed(lines)) == if LoopExit(lines) == FinishedFrame then s.(finished := true) else s
  {
    var k := Cut(lines);
    if k < |lines| && Classify(lines[k]).FinishedLine? {
      var c := lines[..k + 1];
      assert c[..k] == lines[..k] && c[k] == lines[k];
      assert Run(Opened(), c) == Apply(Run(Opened(), lines[..k]), lines[k]);
      assert lines[k] != "" by {
        assert Classify("") == EventLine(false);
      }
    }
  }

  /** No line before the one that ends the read loop is FINISHED. */
  lemma NotFinishedBeforeCut(lines: seq<string>)
    ensures !Run(Opened(), lines[..Cut(lines)]).finished
  {
    var before := lines[..Cut(lines)];
    RunFinished(Opened(), before);
    forall i | 0 <= i < |before| ensures !Classify(before[i]).FinishedLine? {
      assert !EndsLoop(lines[i]);
    }
  }

  /** The blob never holds more lines than were counted, and only records. */
  lemma {:induction false} StoredWithinCount(p: seq<string>)
    ensures |Stored(p)| <= EventCount(p)
    ensures forall i :: 0 <= i < |Stored(p)| ==> IsRecord(Stored(p)[i])
  {
    if p != [] {
      StoredWithinCount(p[..|p| - 1]);
    }
  }

  /** When every line read is a whole line, the blob splits on '\n' into one part more
      than the number of stored records. */
  lemma {:induction false} BlobLines(p: seq<string>)
    requires forall i :: 0 <= i < |p| ==> IsLine(p[i])
    ensures |Split(Concat(Stored(p)), '\n')| == |Stored(p)| + 1
  {
    StoredLines(p);
    SplitLines(Stored(p));
  }

  lemma {:induction false} StoredLines(p: seq<string>)
    requires forall i :: 0 <= i < |p| ==> IsLine(p[i])
    ensures forall i :: 0 <= i < |Stored(p)| ==> IsLine(Stored(p)[i])
  {
    if p != [] {
      StoredLines(p[..|p| - 1]);
    }
  }

  /** Nothing after the line that ends the read loop is ever read. */
  lemma {:induction false} ReadStopsAtEnd(lines: seq<string>, rest: seq<string>)
    requires Cut(lines) < |lines|
    ensures Cut(lines[..Cut(lines) + 1] + rest) == Cut(lines)
    ensures LoopExit(lines[..Cut(lines) + 1] + rest) == LoopExit(lines)
  {
    var k := Cut(lines);
    var m := lines[..k + 1] + rest;
    CutPrefix(lines[..k], m);
    assert m[..k] == lines[..k] && m[k] == lines[k];
  }

  /** Lines that do not end the loop are all processed. */
  lemma {:induction false} CutPrefix(p: seq<string>, lines: seq<string>)
    requires p <= lines
    requires forall i :: 0 <= i < |p| ==> !EndsLoop(p[i])
    requires |p| < |lines| && EndsLoop(lines[|p|])
    ensures Cut(lines) == |p|
  {
    if p != [] {
      CutPrefix(p[1..], lines[1..]);
    }
  }

  /** Counting, storing and probing distribute over a split of the stream. */
  lemma {:induction false} StreamAppend(a: seq<string>, b: seq<string>)
    ensures EventCount(a + b) == EventCount(a) + EventCount(b)
    ensures Stored(a + b) == Stored(a) + Stored(b)
    ensures Probes(a + b) == Probes(a) + Probes(b)
  {
    if b == [] {
      assert a + b == a;
    } else {
      var b' := b[..|b| - 1];
      StreamAppend(a, b');
      assert (a + b)[..|a + b| - 1] == a + b';
      assert (a + b)[|a + b| - 1] == b[|b| - 1];
    }
  }

  /** A keep-alive probe anywhere in the stream changes neither the counter nor the blob. */
  lemma ProbeTransparent(p: seq<string>, q: seq<string>, probe: string)
    requires Classify(probe).KeepAliveLine?
    ensures EventCount(p + [probe] + q) == EventCount(p + q)
    ensures Stored(p + [probe] + q) == Stored(p + q)
    ensures Probes(p + [probe] + q) == Probes(p + q) + 1
  {
    StreamAppend(p, [probe]);
    StreamAppend(p + [probe], q);
    StreamAppend(p, q);
    StreamOne(probe);
    assert Stored(p + [probe]) == Stored(p) + [] == Stored(p);
  }

  lemma StreamOne(x: string)
    ensures EventCount([x]) == if Classify(x).EventLine? then 1 else 0
    ensures Stored([x]) == if Classify(x) == EventLine(true) then [x] else []
    ensures Probes([x]) == if Classify(x).KeepAliveLine? then 1 else 0
  {
    assert [x][..0] == [];
  }
}
