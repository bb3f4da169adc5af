# Telemetry session protocol: a Dafny model

This project models the line-based session protocol of a telemetry ingestion
system. Load-testing clients log in with a `user:password` greeting. They stream
records of the form `timestamp;code;value` and probe the server's liveness with
KEEP_ALIVE (`100`) heartbeats. The server authenticates each connection, echoes
probes, counts events and buffers valid records into a per-session blob. When the
session ends, the server hands the blob to durable storage.

The model covers two servers and two clients:

- **`server/serverq.py`**, the queued server (`serverq.dfy`, module `ServerQ`). The
  `Server` class holds the users online, the FIFO write queue and the session store
  that the writer thread fills. The `Handler` class holds the per-connection fields
  `username`, `auth`, `counter`, `blob` and `finished`. Its methods are proved
  against pure reference functions:
  - `Classify` and `Apply` describe what `_process_data` does with one line;
  - `Run` is that effect folded over a stream;
  - `Cut`, `Consumed` and `LoopExit` describe where the read loop stops.

  Lemmas then state what the fold computes: events counted, records stored in order,
  one echo per probe, and a stop at FINISHED.
- **`server/serverq.py` as a whole system** (`sessions.dfy`, module `Sessions`).
  Any number of handlers and the writer are interleaved one event at a time. With the
  user removed from the registry on every exit of the read loop (the correction of the
  first finding below), every step is proved to preserve three invariants:
  - the registry holds exactly the users whose handler is in its read loop;
  - no user has two live sessions;
  - every queued session reaches the store once and in order.
- **`server/server.py`**, the first server (`server_legacy.dfy`, module
  `LegacyServer`). It has the same greeting and registry. It has no FINISHED frame
  and no record check, and it stores the session synchronously.
- **`server/clients.py`**, the current client (`clients.dfy`, module `Clients`):
  - the record generator is a pure function;
  - the `Client` class runs the two heartbeat loops as single passes;
  - `send_data` is a method whose data loop is proved equal to a pure fold, `Feed`,
    over the stream and the heartbeat passes scheduled around each send. The liveness
    test is a parameter: `AsWritten` is the code's `missed == 0`, and `Intended` is
    `missed >= 0`, the correction of the third finding below.
- **`server/client.py`**, the first client (`client_legacy.dfy`, module
  `LegacyClient`). Its data loop is proved equal to a pure fold, `Feed`, over the
  stream.

Three more modules hold shared definitions:

- `text.dfy` (module `Text`) models Python string splitting, the two `strip`
  variants, ASCII decoding and decimal rendering.
- `protocol.dfy` (module `Protocol`) holds the status codes, the greeting and the
  credential decision of `_auth`.
- `heartbeat.dfy` (module `Heartbeat`) holds the heartbeat state both clients share.

`endtoend.dfy` (module `EndToEnd`) connects the client generators to the server
read loops for the client and server pairs the repository runs together.

### How the outside world appears in the model

- **Threads.** The heartbeat threads are not run concurrently. Each pass of
  `recv_keep_alive` or `send_keep_alive` is a `Beat` that the environment
  schedules. A data line is sent after the beats of its `Round`.
- **The clock.** The clock is the integer `now` carried by each beat.
- **Random draws.** These come from a `draw` function that the caller supplies.
- **Reads and writes.**
  - A server reads the sequence of lines that `readline` returns; past its end, every read is empty, as after EOF. `ReadLine` says what one `readline` returns of the bytes a client wrote.
  - Replies the server writes are recorded in a `replies` field.
  - What a client writes is recorded in a `sent` field.
- **Credentials.** The credential store is a map from user to stored hash. The
  password check is a function parameter.
- **Bytes.** Bytes on the wire are characters whose code is the byte value.
  `decode("ascii")` either succeeds unchanged or raises.
- **Whitespace.** `bytes.strip()` and `str.strip()` use different whitespace sets,
  `IsByteSpace` and `IsStrSpace`.

### Notes on the code

- **Registry removal.** `handle` takes the user off the registry after its read loop (`server/serverq.py:71`, `server/server.py:55`), and `finish` runs whatever way `handle` ended. A data line that fails to decode raises out of `handle` before that removal. The model removes the user on every exit; the first two findings below record the code as written.
- **Server under test.** The repository's server test (`server/tests.py:11`) drives the current client against `server/server.py`. It expects each stored blob to split into one more part than the number of events sent (`server/tests.py:118`). The first server stores the FINISHED line `500\n` as data, so the blob splits into `num + 2` parts. `EndToEnd.CurrentClientToLegacyServer` states this. The expected `num + 1` holds against the queued server (`EndToEnd.CurrentClientToQueuedServer`).

## Model

| member | source | states |
|---|---|---|
| Text.Split | server/serverq.py:76 | `str.split` gives one part more than the separators in the text, and no part holds the separator |
| Text.JoinSplit | server/serverq.py:80 | joining the parts of a split with the separator gives back the original text |
| Text.SplitJoin | server/serverq.py:115 | splitting parts that hold no separator, joined by it, gives back the same parts |
| Text.StripTrailing | server/serverq.py:54 | stripping a text that does not start or end in whitespace, followed by whitespace, gives the text back |
| Text.StripKeeps | server/serverq.py:105 | stripping never removes a character that is not whitespace |
| Text.NatToStringRoundTrip | server/clients.py:23-24 | the decimal text of a number reads back as that number |
| Text.ReadLineStops | server/serverq.py:54 | `readline` returns the text up to and including its first `\n`, whatever follows |
| Text.ReadLineWithin | server/serverq.py:54 | a read that meets a `\n` in the first part of a text returns a prefix of that part and nothing after it |
| Text.StripAbsent | server/serverq.py:54 | stripping adds no character |
| Text.SplitLines | server/tests.py:118 | a concatenation of E newline-terminated lines splits on `\n` into E + 1 parts |
| Text.LinesNewlines | server/tests.py:118 | such a concatenation holds exactly E newlines |
| Protocol.ParseGreeting | server/serverq.py:76-80 | the greeting parses exactly when it holds one `:`, into the two parts around it, neither holding `:` |
| Protocol.Authenticate | server/serverq.py:73-99 | malformed exactly when the count of `:` is not 1; already online exactly when the parsed user is in the registry; accepted exactly when the user is offline, known and the password check passes |
| Protocol.GreetingRoundTrip | server/clients.py:86 | when neither the user nor the password holds `:` or `\n`, the server's `readline` returns the whole greeting, and it parses back exactly the user and password the client put in it |
| Protocol.NewlineUserMalformed | server/serverq.py:54-80 | a user name holding `\n` ends the server's first `readline` inside the name, so that line holds no `:` and the login is malformed |
| Protocol.AuthenticateClientGreeting | server/serverq.py:81-99 | a client's greeting, read as one line, is rejected as already online, unknown or bad password, or accepted, decided in that order |
| Protocol.RecordIsNotCode | server/serverq.py:105-111 | a line holding `;` never strips to a status code |
| Protocol.AcceptanceReplies | server/clients.py:88-91 | the server's `200` frame is taken as acceptance; neither server's duplicate-login message is |
| ServerQ.ClassifyRecord | server/serverq.py:105-116 | only records are stored; an ASCII line holding `;` is always counted as an event |
| ServerQ.Cut | server/serverq.py:59-69 | the loop processes every line before the first empty, FINISHED or undecodable one, and stops at it |
| ServerQ.Consumed | server/serverq.py:59-69 | the lines handed to `_process_data` are a prefix: those before the stop, plus the stopping line when it is FINISHED |
| ServerQ.LoopExit | server/serverq.py:59-69 | the read loop ends on EOF, FINISHED or a line that raises |
| ServerQ.Server.constructor | server/serverq.py:135-144 | the server starts with nobody online, an empty queue and an empty store |
| ServerQ.Server.Enqueue | server/serverq.py:124-126 | `put_nowait` appends the entry at the tail of the queue |
| ServerQ.Server.WriterStep | server/serverq.py:146-157 | the writer takes the head of a non-empty queue and appends its user and blob to the store; it does nothing on an empty queue |
| ServerQ.Server.Drain | server/serverq.py:146-157 | a drained queue leaves every queued session in the store, once each and in FIFO order |
| ServerQ.SessionsAppend | server/serverq.py:146-157 | storing two batches of entries in turn stores their concatenation |
| ServerQ.Handler.constructor | server/serverq.py:47-52 | a handler starts with no user, no auth, no events, an empty blob and `finished` unset |
| ServerQ.Handler.Auth | server/serverq.py:73-99 | the handler's result, user, auth flag, registry and reply follow `Authenticate`; only acceptance sets auth and adds the user; only a duplicate login writes the rejection message |
| ServerQ.Handler.ProcessData | server/serverq.py:101-116 | one line updates the session state exactly as `Apply` says, and raises exactly on a non-ASCII line |
| ServerQ.Handler.ReadLoop | server/serverq.py:59-69 | the loop processes exactly the lines `Consumed` names, and its exit is `LoopExit` |
| ServerQ.Handler.Handle | server/serverq.py:43-71 | an undecodable greeting or a rejected login leaves the session empty, with no user recorded when the greeting is undecodable or malformed; after a login the state is `Run` over the consumed lines; the registry is as before on every exit (the corrected removal of Findings row 1) |
| ServerQ.Handler.Finish | server/serverq.py:118-131 | the session is queued as (user, counter, blob) exactly when it was authenticated and counted events |
| ServerQ.RunCounter | server/serverq.py:113-114 | the counter grows by the number of event lines, probes and FINISHED excluded |
| ServerQ.RunBlob | server/serverq.py:115-116 | the blob grows by the concatenation of the record lines, in order |
| ServerQ.RunReplies | server/serverq.py:105-110 | exactly one KEEP_ALIVE frame is written per probe, and nothing else |
| ServerQ.RunFinished | server/serverq.py:111-112 | `finished` is set exactly when some line is FINISHED |
| ServerQ.SessionReference | server/serverq.py:57-69 | a fresh session counts the events, stores the records and echoes the probes read before the stop, and is finished exactly when the loop stopped on FINISHED |
| ServerQ.StoredWithinCount | server/serverq.py:113-116 | no more lines are stored than counted, and every stored line is a record |
| ServerQ.BlobLines | server/serverq.py:113-116 | with whole lines, the blob splits on `\n` into one part more than the stored records |
| ServerQ.ReadStopsAtEnd | server/serverq.py:59-69 | nothing after the line that ends the loop is read or changes how the loop ends |
| ServerQ.CutPrefix | server/serverq.py:59-69 | lines that do not end the loop, followed by one that does, are all processed |
| ServerQ.StreamAppend | server/serverq.py:105-116 | counting, storing and probing distribute over a split of the stream |
| ServerQ.ProbeTransparent | server/serverq.py:105-110 | a probe anywhere in the stream changes neither the counter nor the blob, and adds one echo |
| Sessions.Init | server/serverq.py:135-144 | the server starts with nobody online and nothing queued or stored, and the invariants hold |
| Sessions.NextInv | server/serverq.py:43-157 | with the corrected removal, every connect, greeting, data read or writer pass keeps the registry exact, sessions unique per user, and every finished session queued or stored once, in order |
| Sessions.ConnectInv | server/serverq.py:43-52 | an accepted connection keeps the invariants |
| Sessions.GreetInv | server/serverq.py:54-58 | a greeting, accepted or not, keeps the invariants |
| Sessions.ReceiveInv | server/serverq.py:59-71 | with the corrected removal, a data read, including the one that ends the loop, keeps the invariants |
| Sessions.CloseInv | server/serverq.py:71 | ending the only session of a user removes the user and keeps the invariants |
| Sessions.CloseDurable | server/serverq.py:122-126 | a finished session enters the queue and the log together |
| Sessions.WriteInv | server/serverq.py:146-157 | a writer pass keeps the invariants |
| Sessions.WriteDurable | server/serverq.py:151-155 | a writer pass moves the head of the queue to the end of the store |
| Sessions.DuplicateLoginRejected | server/serverq.py:81-84 | while a user's session is open, a second greeting for that user is rejected as already online, whatever its password, and only that connection changes |
| Sessions.LoginAfterClose | server/serverq.py:71 | once a user's session has ended, however it ended, the user can log in again with a greeting the server reads as one line |
| Sessions.GreetingAscii | server/serverq.py:54-55 | a greeting of ASCII user and password decodes |
| Sessions.LockedOutAsWritten | server/serverq.py:59-71 | as written, one non-ASCII data line leaves the user registered with no open session, and the user's next login, even with the right password, is rejected as already online |
| LegacyServer.Cut | server/server.py:48-53 | the loop processes every line before the first empty or undecodable one |
| LegacyServer.LoopExit | server/server.py:48-53 | the read loop ends only on EOF or a line that raises |
| LegacyServer.Server.constructor | server/server.py:103-108 | the server starts with nobody online and an empty store |
| LegacyServer.Handler.constructor | server/server.py:37-41 | a handler starts with no user, no auth, no events and an empty blob |
| LegacyServer.Handler.Auth | server/server.py:57-82 | the result, user, auth flag, registry and reply follow `Authenticate`, with this server's rejection message |
| LegacyServer.Handler.ProcessData | server/server.py:84-89 | a probe is echoed; every other decodable line, FINISHED and malformed lines included, is counted and appended; a non-ASCII line raises |
| LegacyServer.Handler.ReadLoop | server/server.py:48-53 | the loop processes exactly the lines before the stop, and its exit is `LoopExit` |
| LegacyServer.Handler.Handle | server/server.py:36-55 | an undecodable greeting or a rejected login leaves the session empty, with no user recorded when the greeting is undecodable or malformed; after a login the state is `Run` over the lines before the stop; the registry is as before on every exit (the corrected removal of Findings row 2) |
| LegacyServer.Handler.Finish | server/server.py:91-99 | the session is stored exactly when it was authenticated and counted events |
| LegacyServer.RunKept | server/server.py:87-89 | the counter grows by the number of non-probe lines, and the blob by those lines verbatim, in order |
| LegacyServer.RunReplies | server/server.py:85-86 | exactly one KEEP_ALIVE frame is written per probe |
| LegacyServer.KeptAll | server/server.py:87-89 | without probes, every decodable line is kept |
| LegacyServer.FinishedIsData | server/server.py:84-89 | a `500` line is counted and stored like data |
| LegacyServer.LockedOutAsWritten | server/server.py:48-55 | as written, a non-ASCII data line skips the removal, and the user's next login is rejected as already online |
| Clients.ValueText | server/clients.py:24 | the value field is non-empty and made of digits, `.`, `e` and `-` |
| Clients.DataStream | server/clients.py:19-24 | `datastream(num)` yields exactly `num` lines, the i-th rendered from the i-th draw |
| Clients.RenderFields | server/clients.py:24 | a record splits on `;` into its timestamp, code and value texts |
| Clients.RenderIsRecord | server/clients.py:24 | every rendered record is one ASCII line with three `;` fields |
| Clients.DataStreamRecords | server/clients.py:19-24 | every line of the stream is an ASCII record line |
| Clients.Step | server/clients.py:47-75 | one heartbeat pass keeps `missed` equal to its start plus probes minus echoes, never restarts a thread, and closes the socket only when a thread leaves its loop |
| Clients.RunBeatsAccount | server/clients.py:56-67 | over any schedule, `missed` is its initial value plus the probes counted minus the echoes counted |
| Clients.RunBeatsOpen | server/clients.py:60-75 | while both heartbeat threads run, the socket is open |
| Clients.UnansweredProbes | server/clients.py:64-67 | with the server silent, k spaced probes raise `missed` by k |
| Clients.LossDetected | server/clients.py:108 | enough unanswered probes are always caught by the corrected liveness test |
| Clients.MissedLossAsWritten | server/clients.py:108 | as written, two probes between two sends carry `missed` from -1 to 1, and the `== 0` test never fires again |
| Clients.Client.constructor | server/clients.py:33-45 | a client starts with `missed` at its initial value (-3 by default), timestamp 0, unfinished and unconnected |
| Clients.Client.RecvKeepAlive | server/clients.py:47-60 | one pass of the receive thread is `Step` on a receive |
| Clients.Client.SendKeepAlive | server/clients.py:62-75 | one pass of the send thread is `Step` on a tick |
| Clients.Client.Beats | server/clients.py:47-75 | the scheduled passes run in order, as `RunBeats` |
| Clients.Client.SendData | server/clients.py:77-123 | refused exactly when connect fails; a non-ASCII greeting or reply crashes; any reply but `200` is rejected after the greeting alone; on those paths and on refusal the heartbeat state is unchanged but for the closed socket and `finished`; after `200` the outcome, lines written and heartbeat state are those of `Feed` over the stream, followed by FINISHED exactly when the loop ran to its end on an open socket and that send succeeds; the socket ends closed; `finished` ends true unless refused or crashed |
| Clients.Client.StreamData | server/clients.py:98-118 | the data loop's outcome, heartbeat state and lines written are those of `Feed` over the stream, then the FINISHED frame after a loop that ran to its end on an open socket |
| Clients.Client.SendLine | server/clients.py:98-112 | one turn of the loop is `SendOne`: the round's heartbeat passes, then the send, which raises on a non-ASCII line and fails (setting `finished`) on a failing or closed socket, then the liveness test, which closes the socket and sets `finished` |
| Clients.FeedStopped | server/clients.py:98-112 | once the loop has stopped, later lines change nothing |
| Clients.FeedSent | server/clients.py:98-112 | the loop writes the lines in order: all of them when it runs to the end, the first k when the send of line k fails or the test fires after line k, fewer than all when a line raises |
| Clients.SendOneSent | server/clients.py:99-112 | one turn writes its line exactly when the loop goes on or the test fires after it |
| Clients.LossEndsStream | server/clients.py:108-112 | with the intended test, a line sent after enough unanswered probes ends the loop with the loss reported and nothing more written |
| Clients.MissedLossInLoop | server/clients.py:98-118 | as written, two probes before the only line carry `missed` from -1 to 1, and the loop runs to its end with the socket open, the state after which `StreamData` sends FINISHED; with the intended test the same schedule ends the loop with the loss reported |
| LegacyClient.DataStream | server/client.py:13-19 | `data_stream(num, ...)` yields exactly `num` lines, the i-th rendered from the i-th draw |
| LegacyClient.RenderAsCurrent | server/client.py:19 | a legacy record is the current client's record with an integer value |
| LegacyClient.DataStreamRecords | server/client.py:13-19 | every line of the stream is an ASCII record line |
| LegacyClient.Step | server/client.py:37-53 | one heartbeat pass keeps the `missed` accounting and never restarts a thread; a failed `recv` or probe send ends its thread without closing the socket |
| LegacyClient.RunBeatsKeeps | server/client.py:40-50 | `missed` is its start plus probes minus echoes, and before `finished` the heartbeat threads never touch the socket |
| LegacyClient.DeadSenderNeverLoses | server/client.py:47-51 | once the send thread has died, `missed` can only fall |
| LegacyClient.FeedSent | server/client.py:74-75 | the loop writes a prefix of the lines in order, all of them unless an exception escaped |
| LegacyClient.FeedCrashed | server/client.py:74-75 | once an exception escapes, later lines change nothing |
| LegacyClient.CloseThenCrash | server/client.py:74-80 | after the liveness test closes the socket, the next line's send raises, and nothing more is written |
| LegacyClient.LostThenCrashExample | server/client.py:74-80 | a silent server with `missed` at -1 and two lines: only the first line is written, then the loop crashes |
| LegacyClient.Client.constructor | server/client.py:23-35 | a client starts with `missed` at its initial value (-3 by default), timestamp 0, unfinished and unconnected |
| LegacyClient.Client.RecvKeepAlive | server/client.py:37-44 | one pass of the receive thread is the legacy `Step` on a receive |
| LegacyClient.Client.SendKeepAlive | server/client.py:46-53 | one pass of the send thread is the legacy `Step` on a tick |
| LegacyClient.Client.Beats | server/client.py:37-53 | the scheduled passes run in order, as the legacy `RunBeats` |
| LegacyClient.Client.SendData | server/client.py:55-84 | refused exactly when connect fails; a non-ASCII greeting or reply crashes; any reply but `200` closes; on those paths and on refusal the heartbeat state is unchanged but for the closed socket and `finished`; after `200` the sent lines and heartbeat state are `Feed` over the stream; `finished` is set exactly when no exception escaped; no FINISHED frame is sent; the socket ends closed |
| LegacyClient.Client.StreamData | server/client.py:74-80 | the data loop's state and written lines are `Feed` over the stream |
| LegacyClient.Client.SendLine | server/client.py:75-80 | one turn of the loop is `SendOne`: the send raises on a non-ASCII line, a failing send or a closed socket; `missed == 0` closes the socket and the loop goes on |
| EndToEnd.QueuedKeepsRecords | server/serverq.py:105-116 | the queued server counts and stores every record line and takes none for a code |
| EndToEnd.FinishedFrameEndsQueued | server/serverq.py:111 | the queued server recognises the client's FINISHED frame |
| EndToEnd.QueuedSession | server/serverq.py:59-69 | records then FINISHED: exactly those records are counted and stored, the loop ends on FINISHED, and the blob splits into one part more than there were records |
| EndToEnd.CurrentClientToQueuedServer | server/clients.py:19-24 | the current client's stream of `num` records is stored by the queued server as `num` events, in a blob of `num + 1` parts |
| EndToEnd.LegacySession | server/server.py:48-53 | the first server keeps every non-probe ASCII line it reads before EOF |
| EndToEnd.RecordIsLegacyEvent | server/server.py:84-89 | a record is data to the first server |
| EndToEnd.CurrentClientToLegacyServer | server/tests.py:118 | against the first server, the current client's `num` records plus FINISHED are stored as `num + 1` events, in a blob of `num + 2` parts |
| EndToEnd.LegacyClientToLegacyServer | server/client.py:13-19 | the first client's `num` records are stored by the first server as `num` events, in a blob of `num + 1` parts |

## Left out

- Sockets, `socketserver` threading and the client's `starter` event: reads, writes, probes and echoes are events in a sequential schedule. The relative timing of the data loop and the heartbeat threads is limited to "these passes happen before this send".
- The check-then-add race on `users_online` (`server/serverq.py:81`, `server/serverq.py:91`): each greeting is one atomic step in the system model.
- Wall-clock time and `time.sleep`, including the `per_second` pacing of `data_stream`: the clock is an integer carried by each beat.
- The ranges of the random draws (`randint(0,11)`, `randint(0,100)`) and the exact `repr` of `random.random()`: the draws come from a function the caller supplies, and a float is any non-empty text of digits, `.`, `e` and `-`.
- `salt_and_hash` and `check_password` (SHA-256 with a salt): the password check is a function parameter.
- The sqlite wrappers `server/db.py` and `server/database/db.py`, including reports and `save_session` dumps: the credential store is a map, and the session store is an append-only sequence.
- The busy polling of `db_writer` and its `task_done`: only the FIFO take-and-store effect is modelled.
- `ServerQ.Handler.Handle`: the `ConnectionResetError` path (`server/serverq.py:61-64`) is not modelled, because it reuses a stale or unbound `data`. A failed read is treated as EOF.
- `ServerQ.Handler.ProcessData`: a `BrokenPipeError` on the echo write (`server/serverq.py:107-110`) is not modelled. The echo is always recorded.
- `LegacyServer.Handler.ProcessData`: a failing echo write in the first server would escape `handle`; this is not modelled, and the echo is always recorded.
- `ServerQ.Handler.Handle`: removes the user from the registry on every exit, the corrected behaviour of Findings row 1. The source skips the removal when a data line fails to decode (`Sessions.LockedOutAsWritten`).
- `Sessions.NextInv`: holds for the corrected read step, which removes the user on every exit. As written, a data line that fails to decode breaks the registry invariant (`Sessions.LockedOutAsWritten`).
- `Sessions.ReceiveInv`: the same correction as `Sessions.NextInv`, for a single read.
- `LegacyServer.Handler.Handle`: removes the user on every exit, the corrected behaviour of Findings row 2 (`LegacyServer.LockedOutAsWritten` shows the code as written).
- `Protocol.GreetingRoundTrip`, `Protocol.AuthenticateClientGreeting`, `Sessions.LoginAfterClose`, `Sessions.LockedOutAsWritten`, `LegacyServer.LockedOutAsWritten`: these take a user and password without `\n`, so the greeting is one `readline` result. A user name with `\n` is covered by `Protocol.NewlineUserMalformed`. A password with `\n`, of which the server checks only the part before the `\n`, is not stated.
- `Clients.Client.SendData`, `LegacyClient.Client.SendData`: a failing greeting `sendall` and a `recv` of the reply that raises are not modelled. Only the encode and decode errors are.
- `Clients.Client.SendData`: a reply shorter than the 1024-byte `recv` is assumed to arrive whole; message boundaries are not modelled.
- The `connect` wrappers that create the two threads, and the `session` helper that times a client run: they only start the modelled methods.
- The command-line entry points of all four files, and logging and printing. (The queued server's entry point reads `args.quiet`, which its parser never defines.)
- `spline_test/main.cpp`: floating-point spline evaluation through an external library, outside this protocol.
- `server/tests.py` is not modelled as code. Its expectation about blob sizes is the subject of the `EndToEnd` lemmas.

## Findings

| source | as written | input that shows it | evidently intended | confidence | as-written member | corrected member |
|---|---|---|---|---|---|---|
| server/serverq.py:59-71 | a data line that is not ASCII makes `_process_data` raise, so `users_online.remove` never runs | a logged-in client sends the line `\xff\n` | the user leaves the registry however the loop ends | high (not executed) | Sessions.LockedOutAsWritten | Sessions.LoginAfterClose |
| server/server.py:48-55 | the same exception skips the removal in the first server | a logged-in client sends the line `\xff\n` | the user leaves the registry however the loop ends | high (not executed) | LegacyServer.LockedOutAsWritten | LegacyServer.Handler.Handle |
| server/clients.py:108 | the liveness test is `missed == 0`, checked only after each send | the server stops answering with `missed` at -1, and the data loop stalls (a blocked `sendall`) while two probes go out before the next send, so `missed` goes to 1 | the loop stops once `missed` is no longer negative | medium (not executed) | Clients.MissedLossInLoop | Clients.LossEndsStream |
| server/client.py:78-80 | a fired liveness test closes the socket but neither breaks nor sets `finished`, so the next `sendall` raises out of `send_data` | the server is silent with `missed` at -1; one probe goes out before the first of two lines | the loop stops and `finished` is set, as `server/clients.py:108-112` does | high (not executed) | LegacyClient.LostThenCrashExample | Clients.Client.StreamData |

The first client is modelled as written (it uses `LivenessLostAsWritten`). Its
corrected form is the current client, which breaks out of the loop and sets
`finished`. The current client's methods take the liveness test as a parameter:
`AsWritten` is the code, and `Intended` is the correction that
`Clients.LossEndsStream` and `Clients.LossDetected` are about.
