# mdmt2-server-tester, modelled in Dafny

mdmt2-server-tester is a small test server for the mdmt2 terminal. It listens on TCP and
serves one client at a time. The client speaks line-oriented JSON-RPC, either as raw text
lines or as WebSocket text frames. An operator console next to the server can drop the
client, send pings or raw lines, change the token and, in the later revision, change the
address. The repository holds two revisions: the root files and those under `src/`.

The model covers:

- **Protocol** (`protocol.dfy`, parser.go):
  - the three envelope builders;
  - the structural decode of a JSON document into the `jsonALL` record, with keys matched
    to the field tags regardless of ASCII case, as `encoding/json` matches them;
  - the stage machine of `Parser.Parse` and `handleMethod`: 0 unauthenticated, 1 waiting
    for `upgrade duplex`, 2 active, 3 silenced by `remote_log`.

  JSON text is represented by the document it denotes. Two library steps enter as opaque
  functions of a `Codec`: the JSON grammar, and SHA-512 rendered as hex.
- **Session** (`session.dfy`): the same engine over a whole connection, as a fold
  (`Converse`) of Parse steps over the lines read. Its lemmas state what only shows over
  several lines: the handshake order, stage bounds, and silence after `remote_log`.
- **Net, Sockets, SrcSockets** (`net.dfy`, `sockets.dfy`; sockets.go and src/sockets.go):
  - a buffered connection whose library calls take their outcomes from scripts;
  - transport sniffing (`isHTTP`) and `makeSocket`;
  - the raw and WebSocket `write` and `close`.

  `isHTTP`, `write` and `close` are identical in both revisions and are modelled once. The
  later `makeSocket` differs on upgrade failure.
- **RootServer, SrcServer** (`server.dfy`, `src_server.dfy`; server.go and src/server.go):
  - the supervisor's `connect`, `work`, `restart` and `con` flags;
  - `Close`, `Exit`, `reload` and `Send`;
  - the `connParser` read loop, the `run` accept loop and, in the later revision, `loop`;
  - in the first revision, `Send`'s byte-count write loop.

  Each connection's stage and the replies it sends are proved to be those of `Converse` over
  the lines it handled.
- **RootShell, SrcShell** (`shell.dfy`, `src_shell.dfy`; shell.go and src/shell.go):
  - each console's line reading and trimming;
  - the `parseLine` dispatch and its effects on the server;
  - the settings (token, ip, port) left after a run of commands.

Three behaviours of the code that a reader of the protocol might not expect are modelled
as written:

- `makeReply` returns `id != nil` as its send flag (parser.go:91), so the `authorized`,
  `upgraded` and ping replies to a request without an id are never sent
  (`Session.HandshakeScenario`, `Protocol.MethodStep`).
- `handleMethod` passes the parameter, not the method name, to `makeWrongMethodReply`
  (parser.go:152 and parser.go:165), so a -32600 message quotes the parameter of the wrong
  call (`Protocol.MethodStep`). `makeError` also returns `id != nil` (parser.go:79), so such
  an error for a request without an id is not sent either.
- `Params [1]string` is tagged `omitempty` (parser.go:36), but a one-element array is never
  empty, so `params` is marshalled even for an empty parameter; see Findings.

## Model

| member | source | states |
|---|---|---|
| Decimal.Format | parser.go:144 | `%d` of a stage is a non-empty string of digits that denotes the stage, with no leading zero |
| Decimal.ParseUint16Meaning | src/shell.go:89 | `strconv.ParseUint(v, 10, 16)` succeeds exactly when v is a non-empty run of digits whose value is at most 65535, and it then returns that value |
| Decimal.ParseUint16 | src/shell.go:89 | `strconv.ParseUint(v, 10, 16)` as a left-to-right accumulation: the empty string is a syntax error, and otherwise the first non-digit or a value over 65535, whichever comes first, is the error (no contract of its own; its meaning is the previous row) |
| Decimal.ParseFormatted | src/shell.go:89-93 | every 16-bit port, printed with `%d`, parses back to itself |
| Protocol.MakeRequest | parser.go:54-68 | makeRequest as written: the flag is true exactly when the id is not nil, `method` holds the method, and `params` is always the one-element list `[param]`, even for an empty param |
| Protocol.MakeRequestOmitting | parser.go:54-68 | makeRequest as intended: the same flag and method, and no `params` member when the param is empty |
| Protocol.PingRequest | parser.go:99-101 | the console's ping is a `ping` request with id "pong", and its flag is always true |
| Protocol.PingAsWritten | parser.go:99-101 | for a non-empty time stamp, makeRequest as written builds the same ping as the corrected one |
| Protocol.MakeError | parser.go:70-80 | the error reply always writes the id (nil as null) and carries the given code and message without a result; the flag is true exactly when the id is not nil; the text is longer than two characters |
| Protocol.MakeReply | parser.go:82-92 | the success reply carries the result, writes the id only when it is not nil, and has no error; the flag is true exactly when the id is not nil |
| Protocol.HashMatch | parser.go:47-52 | hashMatch: the token's hex digest equals the candidate (no contract of its own; its consequence is the next row) |
| Protocol.MalformedHashNeverMatches | parser.go:47-52 | with a 128-character lowercase hex digest, a candidate of another length, or with a non-hex character, never matches |
| Protocol.Unmarshal | parser.go:94-97 | `json.Unmarshal` into a zero `jsonALL`: null decodes to the zero record, an object none of whose keys names a field decodes to the zero record, and any other document fails with the "cannot unmarshal … into Go value of type main.jsonALL" error |
| Protocol.Fill | parser.go:39-45 | the members of the object are decoded in order; members whose keys name no field leave the record unchanged, and a failure needs a non-null member under a field's key |
| Protocol.FillSources | parser.go:39-45 | each of id, method and result of a decoded record is either the zero value or the value of a member whose key names that field |
| Protocol.FillError | parser.go:17-20 | the `error` object decodes into errorData: without `code` or `message` keys it is unchanged, and otherwise each field is the starting one or the value of a member under its key |
| Protocol.NestedTypeError | parser.go:17-20 | a mistyped member inside `error` is reported against the struct that holds it: `{"error":{"code":"x"}}` fails with "cannot unmarshal string into Go struct field errorData.error.code of type int" |
| Protocol.FoldedKeysDecode | parser.go:39-45 | keys match the field tags without regard to case: `{"Method":"authorization","ID":1}` decodes to an authorization call with id 1 |
| Protocol.ParseAny | parser.go:94-97 | a grammar error is returned unchanged, and a decoded record comes from a document that is an object or null |
| Protocol.RequestDecodes | parser.go:54-97 | decoding a marshalled request gives back its id, its method and its params list, and the defensive params rule reads back the param |
| Protocol.ReplyDecodes | parser.go:82-97 | decoding a marshalled success reply gives back its id and result |
| Protocol.ErrorDecodes | parser.go:70-97 | decoding a marshalled error reply gives back its id, code and message |
| Protocol.PingIsEchoed | parser.go:169-172 | an active parser answers a decoded console ping with its own parameter as the result, keeps stage 2, and sends the answer exactly when the ping has an id |
| Protocol.EmptyParamIsMarshalled | parser.go:54-59 | as written, an empty param is marshalled as `[""]`; the corrected builder leaves `params` out |
| Protocol.RequestsAgree | parser.go:54-66 | for a non-empty param, both readings of makeRequest build the same request |
| Protocol.WrongMethodReply | parser.go:143-146 | an error -32600 whose message quotes the word it is given and the awaited method, followed by the stage in decimal; the flag is true exactly when the id is not nil |
| Protocol.MethodStep | parser.go:148-175 | handleMethod: stage 0 advances only on an accepted authorization (matching hash, or no token), stage 1 only on `upgrade duplex`. A wrong method gets -32600 with the message `Wrong method "<param>", i wait "<awaited>" in stage <n>`, quoting the parameter; a wrong hash gets 102 "forbidden: wrong hash". Results: "authorized", "upgraded", and the echoed ping parameter at stage 2. Every error carries the request's id, and every result carries it unless it is nil. Any other call at stage 2 or later gives no reply. The flag is true exactly when the id is not nil and a reply was built |
| Protocol.Param | parser.go:129-134 | the parameter handleMethod receives: a non-empty one is the first element of a non-empty params list, and params that are not a non-empty list give "" |
| Protocol.ParseStep | parser.go:110-141 | Parse: above stage 2 nothing happens. The stage rises by exactly one on an advancing call and is otherwise unchanged. A decode failure always sends -32700 with id null and the decoder's message. A result before stage 2 gets error 100 "forbidden: authorization is necessary" with the request's id. A call at stage 2 or below is handled exactly as MethodStep on its method, its defensively read parameter and its id. Incoming errors, results at stage 2 and envelopes without a method are never answered. Every sent reply is longer than two characters |
| Protocol.Parser.MakeWrongMethodReply | parser.go:143-146 | the method builds the reply WrongMethodReply specifies for the parser's current stage |
| Protocol.Parser.HandleMethod | parser.go:148-175 | the method's new stage, reply and flag are those of MethodStep from the old stage |
| Protocol.Parser.Parse | parser.go:110-141 | the method's new stage, reply and flag are those of ParseStep on the decoded line from the old stage |
| Session.Converse | server.go:79-89 | connParser's loop as a fold of Parse steps: at most one reply per line, and from stage 3 nothing is sent and the stage stays |
| Session.ConverseSnoc | server.go:79-89 | one more line in a connection adds one Parse step, from the stage reached so far, and its flagged reply to what was sent |
| Session.StageBounds | parser.go:112-114 | over any run of lines the stage never falls and rises by at most one per line; it stays within 0..2 once inside; from stage 3 nothing is sent and the stage stays |
| Session.StepReplies | server.go:87-88 | after one more line, the strings handed to Send are the earlier ones plus the new reply exactly when its flag is set |
| Session.AuthorizationNeeded | parser.go:150-162 | a connection that leaves stage 0 has read an authorization that the stage-0 parser accepts |
| Session.UpgradeNeeded | parser.go:163-168 | from stage 1, reaching stage 2 needs an `upgrade duplex` line |
| Session.ActiveNeedsHandshake | parser.go:148-175 | a connection is active only after an accepted authorization followed, on a later line, by `upgrade duplex` |
| Session.AuthorizationStep | parser.go:150-158 | an authorization carrying the token's digest moves stage 0 to 1 and answers "authorized", sent exactly when it has an id |
| Session.UpgradeStep | parser.go:163-168 | `upgrade duplex` moves stage 1 to 2 and answers "upgraded", sent exactly when it has an id |
| Session.PingStep | parser.go:169-172 | at stage 2 a ping is answered with its parameter and the stage stays 2 |
| Session.HandshakeScenario | parser.go:148-175 | the documented handshake (authorization, upgrade, ping "42") reaches stage 2. With an id it sends "authorized", "upgraded" and "42"; without an id it sends nothing |
| Net.PutUint16 | sockets.go:43-45 | `binary.BigEndian.PutUint16` gives two bytes that read back as the value |
| Net.EncodeDecoded | sockets.go:43-45 | any two bytes, read as a big-endian 16-bit value and written back, are unchanged |
| Net.FirstError | sockets.go:49-54 | the error chosen is None exactly when no step failed, and otherwise the earliest failure |
| Sockets.IsHTTP | sockets.go:100-104 | true exactly when the connection opens with the four bytes `GET `; fewer bytes give false, and nothing is consumed (src/sockets.go has the same function) |
| Sockets.MakeSocket | sockets.go:78-98 | a WebSocket exactly when isHTTP holds. A failed upgrade returns its error and touches nothing. Otherwise a raw socket is returned, and its reader starts at the first byte |
| SrcSockets.MakeSocket | src/sockets.go:78-99 | the same choice, but a failed upgrade writes the error followed by a blank line directly to the connection (one write, result ignored) before returning the error |
| Sockets.Write | sockets.go:35-72 | a raw write buffers s + CRLF and a WebSocket write buffers one text frame. Either flushes only if buffering succeeded. What reaches the peer and the error (the first failure) follow from the two outcomes (src/sockets.go writes the same way) |
| Sockets.Close | sockets.go:42-76 | a raw socket only closes the connection. A WebSocket buffers a close frame with status 1000, flushes and closes, always running all three. The connection ends closed and the error is the first of frame, flush, close (src/sockets.go closes the same way) |
| Sockets.CloseStatusBytes | sockets.go:43-45 | the close payload is the bytes 0x03 0xE8, which read back as 1000 |
| Sockets.RawWriteReadsBack | sockets.go:67-68 | a line without line feeds, written raw, is read back by a `textproto` line reader as exactly that line |
| RootServer.Transferred | server.go:122-131 | the write loop as a function of the write script: never more than the buffer, all of it when the loop completes, and a completed loop is not a hang-up |
| RootServer.FaultFreeDelivers | server.go:122-131 | with no write error and no console hang-up, every byte of line + CRLF is written |
| RootServer.ShortMeansFault | server.go:123-127 | a loop that stops short met a write error or the console's Close |
| RootServer.Requests | server.go:79-90 | the lines a connection hands to Parse are non-empty and are, in order, the first lines read |
| RootServer.Server.Close | server.go:94-101 | `connect` is cleared and the connection, if any, is closed; nothing else changes |
| RootServer.Server.Exit | server.go:104-108 | `work` and `connect` are cleared, the connection is closed and the listener is closed |
| RootServer.Server.Apply | server.go:94-108 | a console `close` or `exit` that runs while the connection goroutine waits has exactly Close's or Exit's effect |
| RootServer.Server.Send | server.go:111-133 | with no client nothing happens. Otherwise the characters that reach the peer are the prefix of line + CRLF that Transferred gives, and `connect` ends false exactly when the console hung up |
| RootServer.Server.WritePass | server.go:123-130 | one pass of the write loop: stop on a hang-up, otherwise advance by what one write took, stopping on its error. Stated against Transferred |
| RootServer.Server.Handle | server.go:87-89 | after one line, the stage and the replies sent are those of the conversation extended by that line |
| RootServer.Server.ConnParser | server.go:73-91 | `connect` is set and the stage is 0 before reading. The lines handled are a prefix of the connection's requests, none if `work` was already clear, and all of them unless the loop was cut short, which happens only after at least one was handled and when a console hang-up was among the write events used. The stage and the replies sent are those of Converse over them. The connection ends closed and `connect` cleared |
| RootServer.Server.ReadLoop | server.go:79-90 | the loop stops at a read error, an empty line or a cleared flag. It handles every request of the connection, unless `connect` was cleared by a console hang-up met while replying, after at least one was handled. It keeps the conversation invariant |
| RootServer.Server.Step | server.go:80-89 | one read: an error, empty line or console command stops the loop with no request left; otherwise the line is the next request and is handled |
| RootServer.Server.Run | server.go:49-71 | accepts while `work` holds, serves each connection, clears `con` after each, and closes the listener on the way out; when `work` still holds, the accept script was used up |
| SrcServer.Requests | src/server.go:95-106 | the lines a connection hands to Parse are non-empty and are, in order, the first lines read |
| SrcServer.Server.MakeServer | src/server.go:24-31 | binds the listener to the current ip and port, recorded in order |
| SrcServer.Server.Close | src/server.go:110-117 | `connect` is cleared and the socket, if any, is closed without reading anything |
| SrcServer.Server.Exit | src/server.go:120-124 | `work` and `connect` are cleared, the socket and the listener are closed |
| SrcServer.Server.Reload | src/server.go:126-129 | `restart` is set, then Exit's effects hold |
| SrcServer.Server.Apply | src/server.go:110-129 | a console close, exit or reload that runs while the connection goroutine waits has exactly that method's effect on the flags; a reload first stores the address it carries, as the console stores the new port or ip before calling `reload` (src/shell.go:92-94, src/shell.go:100-102), and nothing else changes the address |
| SrcServer.Server.Send | src/server.go:131-143 | a no-op unless a socket is connected. Otherwise exactly one `write` of the line: its frame is buffered, a flush follows only if buffering met no fault, and with no fault the earlier buffered frames and this one reach the wire; the error is only reported, so reads and flags are untouched |
| SrcServer.Server.Handle | src/server.go:103-105 | after one line, the stage and the replies sent are those of the conversation extended by that line |
| SrcServer.Server.ConnParser | src/server.go:91-107 | `connect` and stage 0 are set first. When `work` holds, exactly the connection's requests are handled; otherwise none. The stage and the replies follow Converse, and Close runs at the end |
| SrcServer.Server.ReadLoop | src/server.go:95-106 | the loop stops at a read error, an empty line or a console command; it handles exactly the connection's requests when `work` holds, none otherwise, and keeps the conversation invariant |
| SrcServer.Server.Step | src/server.go:96-105 | one read: an error, empty line or console command stops with no request left; otherwise the line is the next request and is handled |
| SrcServer.Server.Serve | src/server.go:74-86 | the accepted connection always ends closed and `con` cleared. A failed WebSocket upgrade writes the error and a blank line straight to the connection, then closes it, and nothing is handled or sent. Otherwise the socket is served: its requests are handled when `work` holds, and the stage and replies follow Converse |
| SrcServer.Server.Run | src/server.go:67-89 | accepts while `work` holds, consuming the script in order; keeps the binds and closes the listener. A pass consumes at most one reload command, as its last event, and then ends with `restart` set and that command's address stored; without a reload of any kind the address is unchanged |
| SrcServer.Server.Pass | src/server.go:52-60 | one pass of loop: run, then, when `restart` is set, one bind to the address as it stands, which is the address of the reload command the pass consumed, if any; otherwise the loop ends |
| SrcServer.Server.Loop | src/server.go:48-65 | consumes the script in order, pass by pass, and ends with `restart` clear and the listener closed. The earlier binds are kept and every pass but the last is followed by exactly one bind; a pass that consumed a reload command is followed by a bind to that command's address, so a port or ip set at the console is the next one bound. There are at least as many new binds as reload commands consumed, and the last bind is to the final address |
| RootShell.Dispatch | shell.go:35-50 | a `token ` line carries exactly what follows the prefix; any line not matched is forwarded verbatim |
| RootShell.TokenCommand | shell.go:44-46 | every line `token <t>` sets the token to t, spaces included |
| RootShell.Forwarded | shell.go:36-48 | a line is forwarded exactly when it is none of close, exit, ping and does not start with `token ` |
| RootShell.ReadString | shell.go:22-26 | `ReadString('\n')` fails exactly when no line feed remains; otherwise it returns the text up to and including the first line feed, and the input is split without loss |
| RootShell.TrimLineEnds | shell.go:27 | the result is a prefix of the line that does not end in CR or LF, and everything removed is CR or LF |
| RootShell.Commands | shell.go:21-32 | the lines parseLine receives are never empty |
| RootShell.TokenAfter | shell.go:44-46 | after a run of commands the token is the one the last token command set, or the initial token when there was none |
| RootShell.Shell.ParseLine | shell.go:35-50 | `close` closes the client, `exit` only clears the console's flag, `token` sets the token without sending, and ping and any other line are sent exactly when a client is connected |
| RootShell.Shell.RunForever | shell.go:17-33 | the lines handled are a prefix of the input's commands, all of them unless `exit` came, which is then the last. The token is TokenAfter over them. The server always exits |
| RootShell.Shell.Step | shell.go:22-31 | one read: the end of input stops; an empty trimmed line is skipped; otherwise the trimmed line is the next command and is handled |
| RootShell.Shell.Handle | shell.go:31 | parseLine keeps the token equal to TokenAfter, and `exit` can only be the last line handled |
| SrcShell.Split | src/shell.go:66-67 | `SplitN(text, " ", 2)` loses nothing: the command word has no space; with no rest the word is the whole text, and otherwise word + " " + rest is the text |
| SrcShell.SplitJoin | src/shell.go:66-67 | a word without spaces, a space and any rest split back into that word and rest |
| SrcShell.Argument | src/shell.go:68-74 | `isValue` holds exactly when something follows the first space, and a non-empty value is that whole rest (a lone space is the only rest that gives "") |
| SrcShell.Dispatch | src/shell.go:75-117 | the branch parseLine takes, by its tests of the command word in order; port, ip and token carry the argument of the rest after the word, and a forwarded line carries the text as typed |
| SrcShell.Forwarded | src/shell.go:75-117 | parseLine's final branch sends the line as typed exactly when its command word is none of help, close, exit, ping, port, ip, token and remote_log (remote_log goes to the same branch but sends only the word) |
| SrcShell.ValueCommand | src/shell.go:68-110 | `token v`, `ip v` and `port v` receive exactly v for every v other than "" and " " |
| SrcShell.EmptyValue | src/shell.go:71-73 | a command followed by two spaces gets the empty string as its value |
| SrcShell.ConfigureStores | src/shell.go:96-109 | `ip v` stores v as the ip and `token v` stores v as the token, for every v other than "" and " " |
| SrcShell.ConfigureStoresPort | src/shell.go:86-95 | `port n` with n a 16-bit number in decimal stores n as the port |
| SrcShell.ConfigureStoresEmpty | src/shell.go:68-74 | `token` or `ip` followed by two spaces stores the empty string |
| SrcShell.Configure | src/shell.go:86-110 | a port stays a 16-bit value, and the address changes only on a line that reloads |
| SrcShell.SettingsAfter | src/shell.go:48-61 | over a run of lines a 16-bit port stays 16-bit |
| SrcShell.AddressKept | src/shell.go:86-103 | a run of lines none of which reloads leaves ip and port unchanged |
| SrcShell.TrimSpaces | src/shell.go:59 | the result is a suffix of the line that does not start with a space, and everything removed is spaces |
| SrcShell.Commands | src/shell.go:48-61 | there are at most as many commands as prompt entries, and none starts with a space |
| SrcShell.ExitWord | src/shell.go:79-80 | a line ends the console exactly when it is `exit` or starts with `exit ` |
| SrcShell.Shell.Store | src/shell.go:86-110 | the port, ip and token branches: the settings become Configure of the old ones, a line that reloads has reload's effect on the flags, and any other leaves flags and socket untouched; nothing is sent |
| SrcShell.Shell.ParseLine | src/shell.go:64-118 | each command's effect on the token, address, stage, flags and sent lines. A valid port or any ip reloads; an invalid port changes nothing. `remote_log` sets stage 3 and sends only the word. Forwarded lines are sent as typed. `exit` only clears the console's flag |
| SrcShell.Shell.RunForever | src/shell.go:26-62 | the lines handled are a prefix of the script's commands, all of them unless an exit came last. The settings are SettingsAfter over them. At the end `restart` is cleared and the server has exited |
| SrcShell.Shell.ReadLoop | src/shell.go:48-61 | the loop keeps the consumed, exit-last and settings invariants |
| SrcShell.Shell.Step | src/shell.go:49-60 | one prompt: an error, the end, or an interrupt on an empty prompt stops; an interrupt with text is skipped; an entered line, without leading spaces, is handled |
| SrcShell.Shell.Handle | src/shell.go:60 | parseLine extends the settings by SettingsAfter and keeps `exit` last |

## Left out

- Goroutines, `sync.Mutex` and `sync.WaitGroup`: the model is sequential. Only the console's close, exit and reload (and, in the first revision, a hang-up met by the write loop) can run while the connection goroutine waits: each is an event of that read's, accept's or write loop's script.
- The other console commands are not interleaved into a connection's run: a `token` typed during a connection does not change the digest the running conversation checks, a `remote_log` that sets stage 3 on a live connection (src/shell.go:112-116) does not reach that connection's conversation, which is folded from stage 0, and a `ping` or forwarded line sent by the console never falls between two of the connection's replies.
- The console acts on the server between its own lines only. The connection goroutine's activity between two console lines is not interleaved into the console's run.
- The JSON grammar and encoding/json's character-level output: the grammar is an opaque function from text to document, and a reply's text is an opaque `render`. Go's map ordering, number formats and escaping are not modelled.
- SHA-512 and its `%x` rendering: an opaque function of the token.
- `handleError`, `handleResult` and `timeTime`: they only print, and they use floating-point wall-clock time. The time stamp of a ping is a parameter (`clock`), required to be non-empty because `%f` never prints an empty string.
- Every `fmt.Print*`, readline's completer and `usage`, and argparse.go. Only `args.ip`, `args.port` and `args.token` appear, as server fields.
- `net.Listen` and `Accept`: a bind is recorded as an address; accepts come from a script.
- The `panic` in the later `makeServer` on a bind failure is not modelled.
- The first revision's `RunForever` return on a listen failure is not modelled either.
- gobwas/ws framing, `ws.Upgrade` and textproto's `ReadLine` on the server side: reads come from a script. An upgrade is given as the number of request bytes it consumes or its error, and its answer is one `HandshakeReply` piece.
- Sockets.Read: the framing of a line or text frame is left to the library, and only the order of reads is modelled.
- Protocol.Unmarshal: keys are matched to the field tags with ASCII case folded. `encoding/json` also folds the Kelvin sign (U+212A) to `k` and the long s (U+017F) to `s`; those two folds are not modelled.
- RootServer.Server.ReadLoop: when the console hangs up during a reply, `connect` is cleared and the loop stops early. The contract states that a hang-up event was used and at least one request was handled, not which request's reply met it.
- RootServer.Server.ConnParser: inherits that gap; the `cut` flag marks such an early stop.
- RootServer.Server.Send: counts characters of line + CRLF, where server.go:112-113 counts the UTF-8 bytes of `[]byte(line + "\r\n")`. For text beyond ASCII the total and the cut point of a partial write differ, and a partial write in Go can split a character; the model's write script counts characters.
- RootServer.Server.Run: states the flags and script use at the end; what each connection does is stated by ConnParser.
- SrcServer.Server.Run: states the flags, the address, the binds and how the script is consumed; what each connection does is stated by Serve.
- SrcServer.Server.Loop: a console reload typed while a connection is read from also sets `restart` and stores its address, so the contract bounds the number of rebinds from below by the reload commands in the accept script, not exactly; the bind after such a pass is to the address as it then stands.
- Library calls have no size limits, and integers are unbounded. The stage is a `uint` that only reaches 3, and the port is range-checked before it is stored.

## Findings

| source | as written | input that shows it | evidently intended | confidence | as-written member | corrected member |
|---|---|---|---|---|---|---|
| parser.go:36 | `Params [1]string` is tagged `omitempty`, but a Go array of length one is never empty, so `params` is always marshalled, including `"params":[""]` for an empty param | `makeRequest("ping", "", "pong")` | the `if len(param) > 0` guard at parser.go:57-59 and the tag mean: no `params` for an empty param | not executed | Protocol.MakeRequest, Protocol.EmptyParamIsMarshalled | Protocol.MakeRequestOmitting, Protocol.RequestsAgree |
