# OpenOS control gateway: a Dafny model of its QMP translation layer

OpenOS lets a client drive a QEMU virtual machine's mouse and keyboard and take
screenshots of it. Clients talk to a websocket server (`ControlServer`). Each client
message is one JSON object with a `type` and a `data` field. The server forwards
each action to a `Controller`, which holds one connection to the QEMU Machine
Protocol (QMP) socket. After a one-time `qmp_capabilities` handshake, the controller
writes one JSON command per line and reads one reply after each.

This project models that layer and proves what it sends:

- `Constants` (`constants.dfy`): the three capability tables of
  `services/constants.py`. These are the key table (166 names), the
  mouse-button table and the scroll table, each kept as a constant map. Lemmas
  state what the tables contain, which names alias one code, and that a
  direction name means different codes in the key and scroll tables.
- `Json` (`json.dfy`): JSON values and a serialiser written in the style of
  Python's `json.dumps`, with ASCII-only output, `\uXXXX` escapes, surrogate
  pairs for characters beyond the basic plane, and `", "` and `": "` separators.
  A decoder of string literals serves as its partner: quoting a string and
  unquoting it gives the string back.
- `Qmp` (`qmp.dfy`): the QMP command documents and readers that take them apart,
  so each command's contents can be read back. It also holds the
  one-line-per-command framing of the socket and the `strftime` timestamp. The
  default screenshot name is built from that timestamp and is injective in the
  millisecond.
- `QmpController` (`controller.dfy`): the `actions` table, and how `data` binds
  to an action method's keyword parameters (`f(**data)`). It also holds the
  `Controller` class. The class keeps the frames written to the QMP socket, the
  number of replies read, and a ghost log of the requests behind the frames. Its
  invariant says the handshake came first and never again, and every frame is
  one request's JSON text followed by a newline.
- `Server` (`server.dfy`): the routing of one message as a pure function
  (`Route`, `Handle`), the error replies, and the greeting. It also holds the
  `ControlServer` class. Its outbox records every message sent to a client, and
  a ghost log records every controller call. `OnMessageReceived` follows the
  source's branches and is proved to do exactly what `Handle` says.

Things that are inputs here rather than effects:
- the JSON decoder's result for a message (`Parsed`);
- the clock (`DateTime`);
- the host name.

The QMP replies are opaque; only their number is kept.

As in the code, action lookups are case-sensitive (services/server.py:57), and a
filename the caller supplies is sent as given, without the shared-folder prefix
(services/controller.py:76-85).

## Model

| member | source | states |
|---|---|---|
| Constants.LettersMapToLowerCase | services/constants.py:8-10 | every letter name A to Z is a key and maps to the same letter in lower case |
| Constants.DigitsMapToThemselves | services/constants.py:13-14 | every digit name 0 to 9 is a key and maps to itself |
| Constants.FunctionKeysMapToLowerCase | services/constants.py:17-21 | F1 to F24 are keys and map to f1 to f24 |
| Constants.EscapeAliases | services/constants.py:27 | ESC and ESCAPE both map to esc |
| Constants.EnterAliases | services/constants.py:34 | ENTER and RETURN both map to ret |
| Constants.ColonAliases | services/constants.py:35 | COLON maps to the same code as SEMICOLON, because there is no colon key |
| Constants.FullStopAliases | services/constants.py:39 | PERIOD, DOT and FULLSTOP all map to dot |
| Constants.NoReverseLookup | services/constants.py:27 | any function from codes back to names misreads ESC or ESCAPE, so no reverse lookup recovers every name |
| Constants.DirectionKeys | services/constants.py:61 | UP, DOWN, LEFT and RIGHT are keys mapping to up, down, left and right |
| Constants.MouseButtonTable | services/constants.py:86-90 | the button table has exactly LEFT, RIGHT and MIDDLE, each mapped to its lower-case form |
| Constants.ScrollCodes | services/constants.py:93-98 | the scroll table has exactly the four directions with their wheel codes |
| Constants.ScrollTable | services/constants.py:93-98 | the scroll table has four entries, each mapping a direction to "wheel-" and the direction in lower case |
| Constants.ScrollNamesAreKeyNames | services/constants.py:61 | every scroll direction is also a key name, with a different code, so a lookup must know its table |
| Constants.ButtonNamesAreKeyNames | services/constants.py:87-88 | LEFT and RIGHT are key names too, with the same code strings as in the button table |
| Json.Get | services/server.py:42-50 | a lookup finds a value exactly when the key is among the object's names, and the value found is a member stored under that key |
| Json.UnquoteQuote | services/server.py:37 | a dumped string reads back as exactly the original string, whatever characters it holds |
| Json.QuoteInjective | services/server.py:37 | two strings dump to the same text exactly when they are equal |
| Json.QuotePlain | services/controller.py:88 | a string of printable ASCII without quotes or backslashes dumps as itself between double quotes |
| Json.SerializeObject1 | services/server.py:46 | a one-member object dumps as a brace, the quoted key, ": ", the value's text and a closing brace |
| Json.SerializeObject2 | services/server.py:37 | a two-member object dumps its members in order, separated by ", " |
| Json.Serialize | services/controller.py:88 | the dumped text of any document is printable ASCII, so it never holds a newline |
| Qmp.CommandNames | services/controller.py:15 | the handshake, the button command and the screendump command carry the names qmp_capabilities, input-send-event and screendump |
| Qmp.ReadBtnCommandOfBtnCommand | services/controller.py:35-42 | a button command reads back as its down flag and its button, the button passed through unchanged |
| Qmp.BtnCommandInjective | services/controller.py:48-55 | two button commands are equal exactly when button and flag are, so down and up differ only in the flag |
| Qmp.ReadersRejectOtherCommands | services/controller.py:80-85 | the button reader rejects the handshake and screendump commands, and the screendump reader rejects the handshake and button commands |
| Qmp.ReadScreendumpOfScreendumpCommand | services/controller.py:80-85 | a screendump command reads back as exactly its filename and format |
| Qmp.FrameIsOneLine | services/controller.py:88 | a frame is the document's text and one newline, and holds no other newline |
| Qmp.FramesAppend | services/controller.py:88 | framing a log with one more request adds exactly that request's frame |
| Qmp.LinesOfStream | services/controller.py:88 | splitting the written byte stream at newlines gives back each request's JSON text, in order |
| Qmp.StrfTime | services/controller.py:77 | the formatted time is 22 characters long |
| Qmp.StrfTimeLayout | services/controller.py:77 | the formatted time is eight date digits, an underscore, six time digits, an underscore and six microsecond digits |
| Qmp.Timestamp | services/controller.py:77 | the timestamp is 19 characters long |
| Qmp.DefaultFilename | services/controller.py:78 | a default name starts with /shared/screenshot_, continues with the timestamp, and ends with a dot and the format |
| Qmp.ReadTripleOfTriple | services/controller.py:77 | a zero-padded date or time group reads back as its three numbers |
| Qmp.DigitsValueOfPad | services/controller.py:77 | a zero-padded number reads back as that number |
| Qmp.MillisecondDigits | services/controller.py:77 | dropping the last three digits of the six microsecond digits leaves the three millisecond digits |
| Qmp.TimestampIsStampText | services/controller.py:77 | the 19-character timestamp is the date, time and millisecond of the clock, formatted |
| Qmp.ReadStampText | services/controller.py:77 | a timestamp reads back as its date, time and millisecond |
| Qmp.TimestampInjective | services/controller.py:77 | two timestamps are equal exactly when the clocks agree to the millisecond |
| Qmp.DefaultFilenameInjective | services/controller.py:77-78 | two default names are equal exactly when the clocks agree to the millisecond and the formats agree |
| Qmp.ResolveFilename | services/controller.py:76-78 | the name used is always truthy, and a truthy name given by the caller is used as it is |
| Qmp.ResolveMissingFilename | services/controller.py:76-78 | without a truthy name the screendump asks for the default name in the requested format |
| Qmp.ResolveFilenameIdempotent | services/controller.py:76 | resolving an already resolved name, at any later time, changes nothing |
| QmpController.ActionTableListsEveryAction | services/controller.py:20-29 | every one of the eight actions is in the table under its own name |
| QmpController.ActionTableHoldsOnlyActions | services/controller.py:20-29 | the table has exactly eight names, each leading to the action of that name |
| QmpController.BindArgsOf | services/server.py:58 | the keyword arguments of any call bind back to exactly that call |
| QmpController.BindKind | services/server.py:58 | a bound call is a call of the action that was looked up |
| QmpController.BindSucceeds | services/server.py:58 | data binds exactly when it is an object whose names include the required parameters and lie within the method's parameters, with a string format for screenshots |
| QmpController.BindScreenshotDefaults | services/controller.py:72 | for any data, a bound screenshot takes no filename (None) when the data has no filename, the format png when it has no file_format, and otherwise the values given |
| QmpController.CallCommandCarries | services/controller.py:31-85 | button calls send the matching button command, a screenshot sends a screendump with the resolved name and its format, and exactly the other five actions send nothing |
| QmpController.CallCommandIsNoHandshake | services/controller.py:35-85 | no action sends a second handshake |
| QmpController.HandshakeOnceAppend | services/controller.py:15 | appending a request that is not a handshake keeps the log starting with one handshake and never repeating it |
| QmpController.Controller.constructor | services/controller.py:10-29 | the controller connects to localhost:4444, writes exactly the handshake frame and reads one reply, then holds the eight-action table |
| QmpController.Controller.SendToQmpSocket | services/controller.py:87-91 | one send appends exactly the request's frame and one read |
| QmpController.Controller.Send | services/controller.py:87-91 | sending a request that is not a handshake appends its frame and keeps the invariant |
| QmpController.Controller.MouseBtnDown | services/controller.py:31-42 | appends exactly one frame, the button command with down set to true |
| QmpController.Controller.MouseBtnUp | services/controller.py:44-55 | appends exactly one frame, the button command with down set to false |
| QmpController.Controller.MouseMove | services/controller.py:57-58 | writes nothing |
| QmpController.Controller.MousePosition | services/controller.py:60-61 | writes nothing |
| QmpController.Controller.MouseScroll | services/controller.py:63-64 | writes nothing |
| QmpController.Controller.KeyboardKeyDown | services/controller.py:66-67 | writes nothing |
| QmpController.Controller.KeyboardKeyUp | services/controller.py:69-70 | writes nothing |
| QmpController.Controller.Screenshot | services/controller.py:72-85 | appends exactly one screendump frame carrying the resolved filename and the format |
| QmpController.Controller.Perform | services/server.py:58 | running a call appends exactly the frame of the command it sends, or nothing for a stub |
| QmpController.HandshakeFirstAndOnce | services/controller.py:15 | the socket's lines are the requests' texts in order, the first request is the handshake, and no later one is |
| Server.RouteBranches | services/server.py:31-60 | each branch (invalid JSON, missing field, debug, listed action) is taken exactly when its condition holds |
| Server.RouteAction | services/server.py:50-58 | an action message runs the action listed under its type, on its data |
| Server.PairText | services/server.py:37 | the text of a two-member object of strings is its fixed prefix, the second value quoted, and a closing brace |
| Server.EchoedMessageOfReply | services/server.py:35-38 | the invalid-JSON reply gives the client back exactly the raw message it sent |
| Server.ErrorReplies | services/server.py:37-46 | the invalid-JSON reply carries its error and the raw message; the missing-field reply carries its error and no raw message |
| Server.HandleEffects | services/server.py:31-60 | a reply is sent exactly for invalid JSON or a missing field, a call is made exactly when a listed action's data binds, never both, and the call is of the listed action |
| Server.HandleDocument | services/server.py:50-60 | an object with both fields gets no reply and makes at most the call its type and data dispatch |
| Server.GreetedHostOfGreeting | services/server.py:21-23 | the greeting names exactly the host it was built from |
| Server.ControlServer.constructor | services/server.py:11-19 | the server listens on 0.0.0.0:8007, has sent nothing, and owns a fresh controller that has written only the handshake |
| Server.ControlServer.OnNewClient | services/server.py:21-24 | a new client receives exactly one message, "Hello from " and the host name |
| Server.ControlServer.Answer | services/server.py:35-38 | sends exactly one dumped document to the client |
| Server.ControlServer.Dispatch | services/server.py:58 | makes exactly one controller call and appends the frame it sends, if any |
| Server.ControlServer.RunMessage | services/server.py:52-60 | debug and unknown types do nothing; a listed action whose data binds makes exactly one call |
| Server.ControlServer.OnMessageReceived | services/server.py:29-60 | the outbox, the call log and the controller's frames change exactly as `Handle` says: at most one reply, at most one call, never both |

## Definitions

The tables and the functions that only compute carry no contract of their own.
The lemmas and methods in the table above state their properties:

- `Constants.KeyMapping` (services/constants.py:6-78): the Constants rows from LettersMapToLowerCase to DirectionKeys, and ScrollNamesAreKeyNames and ButtonNamesAreKeyNames.
- `Constants.MouseButtonMapping` (services/constants.py:86-90): MouseButtonTable and ButtonNamesAreKeyNames.
- `Constants.ScrollMapping` (services/constants.py:93-98): ScrollCodes, ScrollTable and ScrollNamesAreKeyNames.
- `QmpController.ActionTable` (services/controller.py:20-29): ActionTableListsEveryAction and ActionTableHoldsOnlyActions.
- `Qmp.CapabilitiesCommand` (services/controller.py:15): CommandNames, ReadersRejectOtherCommands and HandshakeFirstAndOnce.
- `Qmp.BtnCommand` (services/controller.py:35-42, 48-55): CommandNames, ReadBtnCommandOfBtnCommand and BtnCommandInjective.
- `Qmp.ScreendumpCommand` (services/controller.py:80-85): CommandNames and ReadScreendumpOfScreendumpCommand.
- `Qmp.Frame` (services/controller.py:88): FrameIsOneLine, FramesAppend and LinesOfStream.
- `QmpController.Bind` (services/server.py:58): BindSucceeds, BindKind, BindArgsOf and BindScreenshotDefaults.
- `QmpController.CallCommand` (services/controller.py:31-85): CallCommandCarries, CallCommandIsNoHandshake and Controller.Perform.
- `Server.Route` (services/server.py:29-60), with `Server.Classify` for the branch a message's `type` selects (services/server.py:53-60): RouteBranches and RouteAction.
- `Server.Handle` (services/server.py:29-60), with `Server.CallOf` for the call a branch makes (services/server.py:57-58): HandleEffects, HandleDocument, ControlServer.RunMessage and ControlServer.OnMessageReceived.
- `Server.InvalidJsonReply` (services/server.py:37) and `Server.MissingFieldsReply` (services/server.py:46): ErrorReplies, PairText and EchoedMessageOfReply.
- `Server.Greeting` (services/server.py:23): GreetedHostOfGreeting and ControlServer.OnNewClient.

## Left out

- Sockets: `connect`, `sendall` and `recv(1024)` are not modelled as I/O. A send appends a frame and counts one read. Reply contents, and replies split across reads, are not modelled.
- The websocket library: `WebsocketServer`, its callback registration and `run`/`run_forever` (services/server.py:14-17, 62-64). The model's methods are the callbacks themselves.
- `on_client_left` only logs, so it is not modelled.
- All logging calls, and services/log_setup.py.
- The example driver script examples/s1_send_input.py, which works over a live websocket with sleeps and float arithmetic.
- `json.loads`: the decoder's result is a parameter, either malformed or the members of a top-level object. Top-level values that are not objects are not modelled, because there the `in` test at services/server.py:42 behaves by accident.
- JSON floats are not modelled; numbers are integers.
- Server.Route: a `type` value that is a list or an object counts as an unknown type. Python would raise `TypeError` when hashing it for the `in` test.
- QmpController.Bind: a `file_format` that is not a string makes the call fail. Python would format it into the name and send it.
- QmpController.Bind: arguments that do not fit the method's parameters make the call fail with nothing sent. The exception Python raises there, and what the websocket library does with it, are not modelled.
- `datetime.now()` and `socket.gethostname()` are parameters. Years below 1000 are excluded, because the zero padding `%Y` gives them varies by platform.
- Nothing shown imports services/constants.py. Its key table is one dict literal; here it is the union of its commented sections, regrouped (no name appears in two sections, so the union is the same map).
- The handshake frame's literal text, `{"execute": "qmp_capabilities"}` and a newline, is not proved character by character. The model proves the frame's structure: the first request is named `qmp_capabilities`, and every frame is its request's dumped text and one newline.
- Decoded objects are taken to have distinct keys at every depth, as `json.loads` gives them. `Get` reads the last member of a key, as a dict does, but `Serialize` writes every member of a list, so an object with a repeated key would be sent with all its members, where a Python dict holds and sends only the last.
- Strings are sequences of Unicode scalar values. Lone surrogates, which `json.loads` accepts and `json.dumps` writes back as `\udXXX` escapes, are not modelled.
- Each message is handled to completion before the next. Concurrent websocket callbacks, and their `sendall`/`recv` pairs interleaving on the one QMP socket (services/controller.py:87-91 takes no lock), are not modelled.
