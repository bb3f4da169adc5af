/** The queued server seen as a whole: any number of connections, each driven by its own
    handler thread, interleaved one event at a time, together with the writer thread that
    moves finished sessions from the queue to the store. Each event is one step that a
    handler (or the writer) takes; which event comes next is the environment's choice. */
module Sessions {
  import opened Text
  import opened Protocol
  import opened ServerQ

  /** Where a connection's handler is. */
  datatype Conn =
    | Pending                                  // accepted, greeting not read yet
    | Streaming(user: string, state: SessionState) // authenticated, in the read loop
    | Done                                     // `handle` has returned and `finish` has run

  datatype World = World(
    online: set<string>,     // users_online
    conns: map<nat, Conn>,   // the live and past connections, by id
    queue: seq<Entry>,       // db_write_queue, head first
    store: seq<Session>,     // the session store
    log: seq<Entry>)         // every entry ever queued, in order

  datatype Event =
    | Connect(id: nat)
    | Greet(id: nat, raw: string)   // the handler reads the greeting line
    | Receive(id: nat, line: string) // the handler reads one data line; "" is EOF
    | Write                          // one pass of the writer

  /** Connection `id` is in the read loop for user `u`. */
  predicate Holds(conns: map<nat, Conn>, id: nat, u: string)
  {
    id in conns && conns[id].Streaming? && conns[id].user == u
  }

  /** `users_online` is exactly the set of users whose handler is in its read loop. */
  ghost predicate Registry(w: World)
  {
    forall u :: u in w.online <==> exists id :: Holds(w.conns, id, u)
  }

  /** No user has two handlers in their read loops at once. */
  ghost predicate Unique(w: World)
  {
    forall i, j, u :: Holds(w.conns, i, u) && Holds(w.conns, j, u) ==> i == j
  }

  /** Every queued entry is stored, once and in order, or still waiting in the queue. */
  predicate Durable(w: World)
  {
    Sessions(w.log) == w.store + Sessions(w.queue)
  }

  ghost predicate Inv(w: World)
  {
    Registry(w) && Unique(w) && Durable(w)
  }

  /** The server as it starts: nobody online, nothing queued or stored. */
  function Init(): (w: World)
    ensures Inv(w)
    ensures w.online == {} && w.store == []
  {
    World({}, map[], [], [], [])
  }

  /** `handle` returns and `finish` runs for a session of `u` that ended in state `s`:
      the user leaves the registry, and the session is queued if it counted events. */
  function Close(w: World, id: nat, u: string, s: SessionState): World
  {
    var e := if s.counter > 0 then [Entry(u, s.counter, s.blob)] else [];
    w.(online := w.online - {u}, conns := w.conns[id := Done], queue := w.queue + e, log := w.log + e)
  }

  function StepConnect(w: World, id: nat): World
  {
    if id in w.conns then w else w.(conns := w.conns[id := Pending])
  }

  /** The greeting of a pending connection: strip, decode, `_auth`. */
  function StepGreet(w: World, id: nat, raw: string, hashes: map<string, string>,
                     checkPassword: (string, string) -> bool): World
  {
    if id !in w.conns || !w.conns[id].Pending? then w
    else
      var g := StripBytes(raw);
      if !IsAscii(g) then w.(conns := w.conns[id := Done])
      else
        match Authenticate(g, w.online, hashes, checkPassword)
        case Accepted(u) => w.(online := w.online + {u}, conns := w.conns[id := Streaming(u, Opened())])
        case _ => w.(conns := w.conns[id := Done])
  }

  /** One read of the loop of a streaming connection. The session closes on EOF,
      on FINISHED and on a line that raises. */
  function StepReceive(w: World, id: nat, line: string): World
  {
    if id !in w.conns || !w.conns[id].Streaming? then w
    else
      var c := w.conns[id];
      if line == "" then Close(w, id, c.user, c.state)
      else
        var s := Apply(c.state, line);
        if EndsLoop(line) then Close(w, id, c.user, s)
        else w.(conns := w.conns[id := Streaming(c.user, s)])
  }

  /** One pass of `db_writer`: the oldest queued entry, if any, goes to the store. */
  function StepWrite(w: World): World
  {
    if w.queue == [] then w
    else w.(queue := w.queue[1..], store := w.store + [Session(w.queue[0].user, w.queue[0].blob)])
  }

  function Next(w: World, e: Event, hashes: map<string, string>, checkPassword: (string, string) -> bool): World
  {
    match e
    case Connect(id) => StepConnect(w, id)
    case Greet(id, raw) => StepGreet(w, id, raw, hashes, checkPassword)
    case Receive(id, line) => StepReceive(w, id, line)
    case Write => StepWrite(w)
  }

  /** Every event keeps the registry exact, sessions unique per user, and every
      finished session on its way to the store. */
  lemma NextInv(w: World, e: Event, hashes: map<string, string>, checkPassword: (string, string) -> bool)
    requires Inv(w)
    ensures Inv(Next(w, e, hashes, checkPassword))
  {
    match e
    case Connect(id) => ConnectInv(w, id);
    case Greet(id, raw) => GreetInv(w, id, raw, hashes, checkPassword);
    case Receive(id, line) => ReceiveInv(w, id, line);
    case Write => WriteInv(w);
  }

  lemma ConnectInv(w: World, id: nat)
    requires Inv(w)
    ensures Inv(StepConnect(w, id))
  {
    var w' := StepConnect(w, id);
    if id !in w.conns {
      assert forall j, u :: Holds(w'.conns, j, u) <==> Holds(w.conns, j, u);
    }
  }

  lemma GreetInv(w: World, id: nat, raw: string, hashes: map<string, string>,
                 checkPassword: (string, string) -> bool)
    requires Inv(w)
    ensures Inv(StepGreet(w, id, raw, hashes, checkPassword))
  {
    var w' := StepGreet(w, id, raw, hashes, checkPassword);
    if id in w.conns && w.conns[id].Pending? {
      var g := StripBytes(raw);
      var r := if IsAscii(g) then Authenticate(g, w.online, hashes, checkPassword) else Malformed;
      if r.Accepted? {
        var u := r.user;
        assert w' == w.(online := w.online + {u}, conns := w.conns[id := Streaming(u, Opened())]);
        assert Holds(w'.conns, id, u);
        assert forall j, v :: Holds(w'.conns, j, v) <==> Holds(w.conns, j, v) || (j == id && v == u);
        forall v ensures v in w'.online <==> exists j :: Holds(w'.conns, j, v) {
          if v == u {
            assert Holds(w'.conns, id, v);
          } else if v in w.online {
            var j :| Holds(w.conns, j, v);
            assert Holds(w'.conns, j, v);
          }
        }
      } else {
        assert w' == w.(conns := w.conns[id := Done]);
        assert forall j, v :: Holds(w'.conns, j, v) <==> Holds(w.conns, j, v);
      }
    }
  }

  lemma ReceiveInv(w: World, id: nat, line: string)
    requires Inv(w)
    ensures Inv(StepReceive(w, id, line))
  {
    if id in w.conns && w.conns[id].Streaming? {
      var c := w.conns[id];
      if line == "" {
        CloseInv(w, id, c.user, c.state);
      } else if EndsLoop(line) {
        CloseInv(w, id, c.user, Apply(c.state, line));
      } else {
        var w' := StepReceive(w, id, line);
        assert forall j, v :: Holds(w'.conns, j, v) <==> Holds(w.conns, j, v);
      }
    }
  }

  /** Closing the only session of a user takes them off the registry and keeps the queue
      and the log in step. */
  lemma CloseInv(w: World, id: nat, u: string, s: SessionState)
    requires Inv(w) && Holds(w.conns, id, u)
    ensures Inv(Close(w, id, u, s))
  {
    var w' := Close(w, id, u, s);
    assert forall j, v :: Holds(w'.conns, j, v) <==> Holds(w.conns, j, v) && j != id;
    forall v ensures v in w'.online <==> exists j :: Holds(w'.conns, j, v) {
      if v in w'.online {
        var j :| Holds(w.conns, j, v);
        assert j != id;
        assert Holds(w'.conns, j, v);
      }
    }
    CloseDurable(w, id, u, s);
  }

  /** A closed session's entry goes to the end of both the queue and the log. */
  lemma CloseDurable(w: World, id: nat, u: string, s: SessionState)
    requires Durable(w)
    ensures Durable(Close(w, id, u, s))
  {
    var e := if s.counter > 0 then [Entry(u, s.counter, s.blob)] else [];
    SessionsAppend(w.log, e);
    SessionsAppend(w.queue, e);
  }

  lemma WriteInv(w: World)
    requires Inv(w)
    ensures Inv(StepWrite(w))
  {
    var w' := StepWrite(w);
    assert w'.online == w.online && w'.conns == w.conns;
    WriteDurable(w);
  }

  /** One pass of the writer moves the head of the queue to the end of the store. */
  lemma WriteDurable(w: World)
    requires Durable(w)
    ensures Durable(StepWrite(w))
  {
    if w.queue != [] {
      var head := Session(w.queue[0].user, w.queue[0].blob);
      assert Sessions(w.queue) == [head] + Sessions(w.queue[1..]);
      assert w.store + ([head] + Sessions(w.queue[1..])) == (w.store + [head]) + Sessions(w.queue[1..]);
    }
  }

  /** While a user's session is open, a second greeting for the same user is turned away
      as already online, whatever the password, and nothing else changes. */
  lemma DuplicateLoginRejected(w: World, id: nat, raw: string, other: nat, hashes: map<string, string>,
                               checkPassword: (string, string) -> bool)
    requires Inv(w)
    requires id in w.conns && w.conns[id].Pending?
    requires IsAscii(StripBytes(raw)) && ParseGreeting(StripBytes(raw)).Some?
    requires Holds(w.conns, other, ParseGreeting(StripBytes(raw)).value.0)
    ensures Authenticate(StripBytes(raw), w.online, hashes, checkPassword).AlreadyOnline?
    ensures StepGreet(w, id, raw, hashes, checkPassword) == w.(conns := w.conns[id := Done])
  {
    var u := ParseGreeting(StripBytes(raw)).value.0;
    assert u in w.online;
  }

  /** Once a user's session has closed, however it closed, the user can log in again
      with a greeting that the server reads as one line. */
  lemma LoginAfterClose(w: World, id: nat, line: string, newId: nat, user: string, password: string,
                        hashes: map<string, string>, checkPassword: (string, string) -> bool)
    requires Inv(w)
    requires Holds(w.conns, id, user)
    requires line == "" || EndsLoop(line)
    requires ':' !in user && ':' !in password
    requires '\n' !in user && '\n' !in password
    requires user == [] || !IsByteSpace(user[0])
    requires password == [] || !IsByteSpace(password[|password| - 1])
    requires IsAscii(user) && IsAscii(password)
    requires user in hashes && checkPassword(hashes[user], password)
    requires newId !in w.conns
    ensures var w1 := StepConnect(StepReceive(w, id, line), newId);
      var w2 := StepGreet(w1, newId, Greeting(user, password), hashes, checkPassword);
      Holds(w2.conns, newId, user)
  {
    var w0 := StepReceive(w, id, line);
    ReceiveInv(w, id, line);
    assert user !in w0.online;
    var w1 := StepConnect(w0, newId);
    assert w1.conns[newId] == Pending;
    AuthenticateClientGreeting(user, password, w1.online, hashes, checkPassword);
    GreetingAscii(user, password);
  }

  /** The stripped greeting of a client with an ASCII user and password is ASCII. */
  lemma GreetingAscii(user: string, password: string)
    requires IsAscii(user) && IsAscii(password)
    ensures IsAscii(StripBytes(Greeting(user, password)))
  {
    var g := Greeting(user, password);
    AsciiAppend(user, ":");
    AsciiAppend(user + ":", password);
    AsciiAppend(user + ":" + password, "\n");
    StripLeftSpec(g, IsByteSpace);
    var l := StripLeft(g, IsByteSpace);
    StripRightSpec(l, IsByteSpace);
    var r := StripBytes(g);
    forall i | 0 <= i < |r|
      ensures r[i] as int < 128
    {
      assert r[i] == l[i] == g[|g| - |l| + i];
    }
  }

  /** The read loop as written: a line that raises in `_process_data` skips the removal
      from `users_online`, while `finish` still runs. */
  function StepReceiveAsWritten(w: World, id: nat, line: string): World
  {
    if id !in w.conns || !w.conns[id].Streaming? then w
    else
      var c := w.conns[id];
      if line == "" then Close(w, id, c.user, c.state)
      else
        var s := Apply(c.state, line);
        if Classify(line).Undecodable? then Close(w, id, c.user, s).(online := w.online)
        else if EndsLoop(line) then Close(w, id, c.user, s)
        else w.(conns := w.conns[id := Streaming(c.user, s)])
  }

  /** As written, one non-ASCII data line leaves its user registered with no session
      open, and the next login of that user, even with the right password, is
      rejected as already online. */
  lemma LockedOutAsWritten(w: World, id: nat, newId: nat, user: string, password: string,
                           hashes: map<string, string>, checkPassword: (string, string) -> bool)
    requires Inv(w)
    requires Holds(w.conns, id, user)
    requires ':' !in user && ':' !in password
    requires '\n' !in user && '\n' !in password
    requires user == [] || !IsByteSpace(user[0])
    requires password == [] || !IsByteSpace(password[|password| - 1])
    requires newId !in w.conns
    ensures var bad := [0xFF as char, '\n'];
      var w0 := StepReceiveAsWritten(w, id, bad);
      var w1 := StepConnect(w0, newId);
      && !Registry(w0)
      && Authenticate(StripBytes(Greeting(user, password)), w1.online, hashes, checkPassword) == AlreadyOnline(user)
      && StepGreet(w1, newId, Greeting(user, password), hashes, checkPassword).conns[newId] == Done
  {
    var bad := [0xFF as char, '\n'];
    assert !IsAscii(bad) by { assert bad[0] as int >= 128; }
    var w0 := StepReceiveAsWritten(w, id, bad);
    assert user in w0.online;
    forall j ensures !Holds(w0.conns, j, user) {
      if Holds(w.conns, j, user) {
        assert j == id;
      }
    }
    var w1 := StepConnect(w0, newId);
    AuthenticateClientGreeting(user, password, w1.online, hashes, checkPassword);
  }
}
