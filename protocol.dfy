/** The line protocol shared by the telemetry clients and servers: the status codes,
    the greeting `user:password`, the three-field data record, and the credential
    decision that both server handlers take on a greeting. */
module Protocol {
  import opened Text

  datatype Option<T> = None | Some(value: T)

  /** Status codes, as the text that goes on the wire before the '\n'. */
  const ACCEPTED: string := "200"
  const KEEP_ALIVE: string := "100"
  const FINISHED: string := "500"

  /** A one-code frame: the code followed by '\n'. */
  function Frame(code: string): string
  {
    code + "\n"
  }

  /** The greeting a client sends: `f"{user}:{password}\n"`. */
  function Greeting(user: string, password: string): string
  {
    user + ":" + password + "\n"
  }

  /** A telemetry record line: splitting it on ';' gives exactly three fields. */
  predicate IsRecord(line: string)
  {
    |Split(line, ';')| == 3
  }

  /** `username, password = greeting.split(":")`, which succeeds only for exactly two parts. */
  function ParseGreeting(greeting: string): (r: Option<(string, string)>)
    ensures r.Some? <==> Count(greeting, ':') == 1
    ensures r.Some? ==> greeting == r.value.0 + ":" + r.value.1
    ensures r.Some? ==> ':' !in r.value.0 && ':' !in r.value.1
  {
    var parts := Split(greeting, ':');
    if |parts| != 2 then None
    else
      JoinSplit(greeting, ':');
      assert Join(parts, ':') == parts[0] + [':'] + parts[1];
      Some((parts[0], parts[1]))
  }

  /** What `_auth` decides about a greeting. */
  datatype AuthResult =
    | Malformed
    | AlreadyOnline(user: string)
    | UnknownUser(user: string)
    | BadPassword(user: string)
    | Accepted(user: string)

  /** The decision of `_auth` on a stripped, decoded greeting, given the users online,
      the stored password hashes by user name, and the password check. */
  function Authenticate(greeting: string, online: set<string>, hashes: map<string, string>,
                        checkPassword: (string, string) -> bool): (r: AuthResult)
    ensures r.Malformed? <==> Count(greeting, ':') != 1
    ensures !r.Malformed? ==> ParseGreeting(greeting) == Some((r.user, ParseGreeting(greeting).value.1))
    ensures r.AlreadyOnline? <==> !r.Malformed? && r.user in online
    ensures r.Accepted? <==>
      && ParseGreeting(greeting).Some?
      && var (user, password) := ParseGreeting(greeting).value;
      && user !in online
      && user in hashes
      && checkPassword(hashes[user], password)
  {
    match ParseGreeting(greeting)
    case None => Malformed
    case Some((user, password)) =>
      if user in online then AlreadyOnline(user)
      else if user !in hashes then UnknownUser(user)
      else if checkPassword(hashes[user], password) then Accepted(user)
      else BadPassword(user)
  }

  /** The greeting is one `readline` result on the server, which reads back exactly the
      user and password the client put in it, when neither contains ':' or '\n' and the
      greeting has no whitespace at its ends. */
  lemma GreetingRoundTrip(user: string, password: string)
    requires ':' !in user && ':' !in password
    requires '\n' !in user && '\n' !in password
    requires user == [] || !IsByteSpace(user[0])
    requires password == [] || !IsByteSpace(password[|password| - 1])
    ensures ReadLine(Greeting(user, password)) == Greeting(user, password)
    ensures ParseGreeting(StripBytes(ReadLine(Greeting(user, password)))) == Some((user, password))
  {
    var s := user + ":" + password;
    assert Greeting(user, password) == s + "\n" + "";
    assert '\n' !in s by {
      forall i | 0 <= i < |s| ensures s[i] != '\n' {
        if i < |user| { assert s[i] == user[i]; }
        else if i > |user| { assert s[i] == password[i - |user| - 1]; }
      }
    }
    ReadLineStops(s, "");
    assert Greeting(user, password) == s + "\n";
    assert s[0] == (if user == [] then ':' else user[0]);
    assert s[|s| - 1] == (if password == [] then ':' else password[|password| - 1]);
    StripTrailing(s, "\n", IsByteSpace);
    SplitJoin([user, password], ':');
    assert Join([user, password], ':') == s;
  }

  /** A client's greeting, read as one line, is accepted exactly when its user is offline,
      known, and the password check passes. */
  lemma AuthenticateClientGreeting(user: string, password: string, online: set<string>,
                                   hashes: map<string, string>, checkPassword: (string, string) -> bool)
    requires ':' !in user && ':' !in password
    requires '\n' !in user && '\n' !in password
    requires user == [] || !IsByteSpace(user[0])
    requires password == [] || !IsByteSpace(password[|password| - 1])
    ensures ReadLine(Greeting(user, password)) == Greeting(user, password)
    ensures Authenticate(StripBytes(Greeting(user, password)), online, hashes, checkPassword)
            == if user in online then AlreadyOnline(user)
               else if user !in hashes then UnknownUser(user)
               else if checkPassword(hashes[user], password) then Accepted(user)
               else BadPassword(user)
  {
    GreetingRoundTrip(user, password);
  }

  /** A user name holding '\n' splits the greeting over two reads: the server's first
      `readline` ends inside the user name, holds no ':', and the login is malformed,
      whoever is online and whatever the credentials. */
  lemma NewlineUserMalformed(user: string, password: string, online: set<string>,
                             hashes: map<string, string>, checkPassword: (string, string) -> bool)
    requires ':' !in user && '\n' in user
    ensures Authenticate(StripBytes(ReadLine(Greeting(user, password))), online, hashes, checkPassword) == Malformed
  {
    assert Greeting(user, password) == user + (":" + password + "\n");
    ReadLineWithin(user, ":" + password + "\n");
    var line := ReadLine(user);
    assert ':' !in line by {
      forall i | 0 <= i < |line| ensures line[i] != ':' {
        assert line[i] == user[i];
      }
    }
    StripAbsent(line, ':', IsByteSpace);
    CountAbsent(StripBytes(line), ':');
  }

  /** Whether a client takes a reply to its greeting as acceptance:
      `str(reply, 'ascii').strip() == str(ACCEPTED)`. Non-ASCII replies raise instead. */
  predicate IsAcceptance(reply: string)
  {
    StripStr(reply) == ACCEPTED
  }

  /** A stripped line that equals a code contains the code's characters and nothing else
      but whitespace around it; in particular a line holding ';' never strips to a code. */
  lemma RecordIsNotCode(line: string, code: string)
    requires ';' in line && ';' !in code
    ensures StripStr(line) != code
  {
    var i :| 0 <= i < |line| && line[i] == ';';
    StripKeeps(line, i, IsStrSpace);
  }

  /** The server's acceptance frame is taken as acceptance, and its duplicate-login
      message is not. */
  lemma AcceptanceReplies()
    ensures IsAcceptance(Frame(ACCEPTED))
    ensures !IsAcceptance("[Handler] Such user allready logged in\n")
    ensures !IsAcceptance("Such user allready logged in\n")
  {
    StripTrailing(ACCEPTED, "\n", IsStrSpace);
    var m1 := "[Handler] Such user allready logged in\n";
    StripKeeps(m1, 0, IsStrSpace);
    var m2 := "Such user allready logged in\n";
    StripKeeps(m2, 0, IsStrSpace);
  }
}
