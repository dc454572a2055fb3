# Chat server, client and bot: a Dafny model

This project models the decision logic of a small Java chat system. A
`ChatServer` accepts connections and keeps two lists: the user names taken and
the live connections. Each connection is run by a `ConnectionThread`. It first
runs a name handshake, which accepts a name unless it is already registered.
It then relays every line the client sends to all connected clients, until the
client sends `/disconnect` or its stream ends. A `ChatClient` does three
things:

- it picks a valid name and retries until the server confirms it;
- its input duty sends console lines as `name: text`, with `/play DOD`
  starting a game and `/disconnect` leaving;
- its printing duty shows every server line that somebody else sent, unless
  the user is in the game.

The `ChatBot` is a client with the fixed name `Quacky`. It never sends what is
typed at its console. It prints lines from others without a game check. It
answers `name: Quack Quack!!` to any message whose text, lower-cased, is
exactly `hey quacky`.

Streams are sequences of lines. A reader takes lines from the front, and an
empty sequence is Java's `readLine()` returning `null`. A writer appends to the
back. State that the Java code changes in place is modelled as classes with
`modifies` frames:

- `Server.ChatServer`: its name list and connection list.
- `Server.ConnectionThread`: the handler's flags, its name and its two streams.
- `Client.ChatClient`: the client's streams, its flags and its display (the
  lines it has printed).

The bot is `Client.ChatClient` with `persona == ChatBot`. Its overridden name
choice is the `ChatBot` branch of the shared `SetUserName`. Its two overridden
duties are separate methods of that class (`BotListeningDuty`,
`BotPrintingDuty`). Each method is specified against pure functions:

- `Lists.FirstIndex` and `Lists.RemoveFirst`, which follow `ArrayList`'s
  `indexOf` and `remove`;
- `Server.Rejections` and `Server.Unregister`;
- `Client.ChatOf`, `Client.Visible`, `Client.Replies` and
  `Client.BotCrashPoint`.

The promised properties are proved as lemmas about those functions or as method contracts:

- a valid name's message parses back to that name, so a client never prints
  its own echo;
- the bot's trigger is an exact, case-insensitive match, and its own replies
  never re-trigger it or get printed by it;
- handshakes keep the registered names distinct;
- a broadcast reaches every registered connection exactly once.

Modules: `Lists` holds the list semantics. `Protocol` holds the literals, the
`name: text` framing and `indexOf`-based parsing. `Bot` holds the trigger and
reply. `Server` holds the two server classes. `Client` holds the client class
and its specification functions.

Two behaviours of the code that a reader might expect to be otherwise:

- One might expect `/disconnect` to remove a user from the server, as the
  end of the stream does. But the relay loop treats a bare `/disconnect` line
  by closing the socket and leaving the loop. It does not unregister the name
  or the connection (`ConnectionThread.java:99-101`). Only the end of the
  stream unregisters (`ConnectionThread.java:108-110`).
  `Server.ConnectionThread.Relay` and `Server.ConnectionThread.Run` state
  exactly this.
- The handshake has a separate "empty registry" branch, but it is not a
  separate rule. It accepts exactly the names the general branch would accept
  (`Server.BootstrapIsOrdinary`).

## Model

| member | source | states |
|---|---|---|
| `Lists.FirstIndex` | ChatServer.java:95-96 | the position of the first occurrence (the one `ArrayList.remove` and `contains` find); no earlier occurrence, and it equals the length exactly when the element is absent |
| `Lists.RemoveFirst` | ChatServer.java:95-96 | `ArrayList.remove(Object)`: an absent element leaves the list unchanged; otherwise exactly the first occurrence is cut out and the rest keep their order |
| `Lists.RemoveFirstDistinct` | ChatServer.java:95-96 | removing from a duplicate-free list keeps it duplicate-free, and the removed element is then absent |
| `Lists.AppendDistinct` | ChatServer.java:108 | appending an element not yet present keeps a list duplicate-free |
| `Protocol.IndexOf` | ChatClient.java:135 | `String.indexOf(char)`: -1 exactly when the character is absent, otherwise a position holding it with no earlier occurrence |
| `Protocol.Sender` | ChatClient.java:135 | the sender is `None` exactly when the line has no colon (where `substring(0, -1)` throws); otherwise it is the colon-free prefix followed by the first colon |
| `Protocol.Format` | ChatClient.java:106 | how a client signs a chat line; characterised by `Protocol.FormatRoundTrip`, which parses it back to the name and the text |
| `Protocol.Body` | ChatBot.java:70 | on a line with a colon the text exists exactly when two characters (Unicode characters, not UTF-16 code units) past the colon lie within the line; it is then the suffix that starts two characters past the first colon (its length is the line's minus the colon's position minus two) |
| `Protocol.FormatRoundTrip` | ChatClient.java:106 | a line `name + ": " + body` with a colon-free name parses back to sender `name` and text `body` |
| `Protocol.ValidUserName` | ChatClient.java:56-60 | the prompt's exit condition: non-empty, no colon, neither `Quacky` nor `Server`; characterised by `Protocol.ValidNameRoundTrip` |
| `Protocol.ValidNameRoundTrip` | ChatClient.java:60 | every name the prompt accepts survives the round trip of the message framing |
| `Protocol.LowerChar` | ChatBot.java:71 | upper-case ASCII letters map to their lower-case letter 32 code points up; every other character is unchanged |
| `Protocol.ToLower` | ChatBot.java:71 | lower-casing keeps the length and lower-cases each character in place |
| `Bot.Reply` | ChatBot.java:72 | the canned reply parses back to the bot's name with text `Quack Quack!!` |
| `Bot.Triggers` | ChatBot.java:65-71 | the trigger test, reached only once the sender has parsed; characterised by `Bot.TriggerOnFormat`, `Bot.TriggerIsExact` and `Bot.TriggerIgnoresCase` |
| `Bot.TriggerOnFormat` | ChatBot.java:70-71 | on a message `name: body` the trigger fires exactly when `body`, lower-cased, is `hey quacky` (both directions) |
| `Bot.TriggerIsExact` | ChatBot.java:70-71 | a triggering body has exactly the phrase's length and matches it letter by letter up to case |
| `Bot.TriggerIgnoresCase` | ChatBot.java:70-71 | conversely, any body matching the phrase letter by letter up to case triggers |
| `Bot.UpperCaseTriggers` | ChatBot.java:70-71 | `Bob: HEY QUACKY` triggers |
| `Bot.NearMissesDoNotTrigger` | ChatBot.java:70-71 | `Bob: hey quacky!` and `Bob: say hey quacky` do not trigger |
| `Bot.ReplyDoesNotRetrigger` | ChatBot.java:70-72 | the bot's own reply never triggers another reply |
| `Server.Acceptable` | ConnectionThread.java:75-84 | the handshake's test, with its empty-registry branch; characterised by `Server.BootstrapIsOrdinary` |
| `Server.BootstrapIsOrdinary` | ConnectionThread.java:75-89 | the empty-registry branch and the general branch accept the same candidates: a candidate is accepted exactly when it is not registered |
| `Server.AcceptKeepsNamesDistinct` | ConnectionThread.java:75-78 | accepting a candidate into a registry of distinct names keeps the names distinct |
| `Server.Rejections` | ConnectionThread.java:83 | `k` taken names are answered by exactly `k` copies of the rejection line and nothing else |
| `Server.Unregister` | ChatServer.java:95 | a handler without a name leaves the name list alone; otherwise the list shrinks by one exactly when the name was registered, no other name is lost or gained, and a duplicate-free list stays duplicate-free and loses the name |
| `Server.UnregisterAccepted` | ConnectionThread.java:108-110 | registering an accepted name and unregistering it again restores the name list |
| `Lists.RemoveAppended` | ChatServer.java:95 | `add` followed by `remove` of an element not yet present is the identity |
| `Server.ChatServer.constructor` | ChatServer.java:24-25 | a new server has no names and no connections, is listening and is not marked for closing |
| `Server.ChatServer.AddUser` | ChatServer.java:65-67 | appends exactly the given name, with no uniqueness check; nothing else changes |
| `Server.ChatServer.PrintMessageToAllClients` | ChatServer.java:81-85 | every connected client's outbox gets the message, unchanged, exactly once; no other outbox and no part of the registry changes |
| `Server.ChatServer.Disconnect` | ChatServer.java:92-97 | the name and the connection are each removed once (absent ones are left alone); the connection is then gone, and distinct names stay distinct with the name gone |
| `Server.ChatServer.Go` | ChatServer.java:102-114 | while listening, a fresh handler for the new client is appended after all earlier connections; once the listening socket is closed, nothing is added and the server is marked for closing |
| `Server.ChatServer.Shutdown` | ChatServer.java:45-51 | every connected handler ends with its server-closed flag set and its socket closed, and the listening socket is closed |
| `Server.ChatServer.AwaitExit` | ChatServer.java:40-54 | the shutdown happens exactly when the operator's console contains `EXIT`; otherwise nothing changes |
| `Server.ConnectionThread.constructor` | ConnectionThread.java:29-41 | a new handler belongs to its server, reads the client's lines, has written nothing, and has no name and no flags set |
| `Server.ConnectionThread.SetServerClosed` | ConnectionThread.java:46-48 | sets the server-closed flag |
| `Server.ConnectionThread.AwaitName` | ConnectionThread.java:73-90 | turns down exactly the candidates before the first acceptable one, each with the rejection line, then sends the confirmation; the accepted name passed the handshake's test, is registered and becomes the handler's name; on end of stream no name is set; distinct names stay distinct |
| `Server.ConnectionThread.Relay` | ConnectionThread.java:95-112 | every line before the first `/disconnect` is broadcast verbatim to every connection; `/disconnect` closes the socket and leaves the registry alone; end of stream unregisters the handler and sets server-closed; a handler already told the server is closed reads nothing |
| `Server.ConnectionThread.Run` | ConnectionThread.java:70-113 | after the handshake and the relay the handler has a name phase behind it and has either closed its socket or seen the server closed; its name is the first acceptable candidate, which was not registered before; a session ended by `/disconnect` (or by a server already closed) leaves that name and the connection registered, and one ended by the end of the stream leaves the name list as it found it and removes the connection; the registry stays consistent and duplicate-free; the client's own outbox gets one rejection per turned-down candidate, then the confirmation, then (when it is connected) the relayed lines; every other connection's outbox gets exactly the relayed lines, in order |
| `Server.Relayed` | ConnectionThread.java:95-103 | the lines a relay broadcasts: none once the server is known to be closed, otherwise the lines in front of the first `/disconnect`; never `/disconnect` itself, and always a prefix of what the client sent after its name |
| `Client.Classify` | ChatClient.java:93-107 | `/disconnect` means leave, `/play DOD` means play, and anything else is sent as `name: line` |
| `Client.ClassifiedChatParses` | ChatClient.java:106 | a chat line signed with a colon-free name parses back, at every receiver, to that name and the line typed |
| `Client.Outgoing` | ChatClient.java:106 | a console command puts at most one line on the server stream, and one exactly when it is chat |
| `Client.Shows` | ChatClient.java:135-136 | a line with no colon is an error; otherwise it is shown exactly when its sender is not the client and the user is not in the game |
| `Client.OwnEchoHidden` | ChatClient.java:135-136 | a client never shows the echo of its own message, in or out of the game |
| `Client.OthersShown` | ChatClient.java:135-136 | a message from anybody else is shown whenever the user is not in the game |
| `Client.GamesCountsPlays` | ChatClient.java:95-99 | the games run are exactly the `/play DOD` lines among those handled |
| `Client.ChatOfShape` | ChatClient.java:93-107 | one message per handled line, except game commands, each the signed form of a console line other than `/play DOD` |
| `Client.VisibleFiltered` | ChatClient.java:132-139 | everything shown is a received line sent by somebody else, and nothing is shown while the user is in the game |
| `Client.OwnChatNeverShown` | ChatClient.java:131-139 | when the server echoes back everything a client sent, that client shows none of it |
| `Client.RepliesAreCanned` | ChatBot.java:69-73 | the bot sends at most one reply per line, and each is its canned reply |
| `Client.RepliesQuiet` | ChatBot.java:65-73 | the bot's replies, echoed back to it, trigger no further replies and are not printed by it |
| `Client.CrashPoint` | ChatClient.java:133-135 | the human's printing duty survives exactly the lines before the first one without a colon, where `substring(0, -1)` throws |
| `Client.BotReadStep` | ChatBot.java:62-74 | one line of the bot's read loop: a line that fails is the crash point and adds only what is shown before the failure; a line that parses extends what is shown and sent by one step of `Visible` and `Replies` |
| `Client.BotCrashPoint` | ChatBot.java:65-70 | the bot's printing duty survives exactly the lines before the first one whose sender or text cannot be parsed |
| `Client.ChatClient.constructor` | ChatClient.java:34-46 | a new client reads the given console and server lines, has sent and printed nothing, and has no flag set |
| `Client.ChatClient.SetUserName` | ChatClient.java:54-64 | the human gets the first valid typed name and consumes exactly the lines up to it, or no name when the console ends first; the bot always gets `Quacky` and reads nothing (ChatBot.java:21-23) |
| `Client.ChatClient.PlayGame` | ChatClient.java:97-99 | the game is entered only with `isPlaying` set and counts one game |
| `Client.ChatClient.Go` | ChatClient.java:156-184 | names are sent until the reply is the confirmation, and only valid names are sent; on joining, the names sent are one more than the replies before the confirmation, and the last one is the client's name; the human's names are, in order, exactly the valid console lines up to the last line read, and the console keeps what follows; the bot reads no console line and sends only `Quacky`; the process exits if the server's stream or the console ends first |
| `Client.ChatClient.JoinRound` | ChatClient.java:161-170 | one round of the handshake: a chosen name is sent and one reply read; the round ends the handshake on the confirmation (the first one in the server's stream), on the stream's end (with no confirmation at all) or when the console ends while choosing (nothing sent, the process exits); a refused round leaves no confirmation among the replies read |
| `Client.ChatClient.SendName` | ChatClient.java:157-161 | the name chosen is sent as one line; the human's choice reads up to and including the next valid console line, which is the name, or the whole console and sends nothing; the bot reads nothing and sends `Quacky` |
| `Client.ValidLinesMembers` | ChatClient.java:56-60 | the names the prompt accepts in turn are exactly the valid console lines, never more than the lines typed |
| `Client.ValidLinesSkip` | ChatClient.java:56-60 | console lines the prompt turns down add no name |
| `Client.ValidLinesAppend` | ChatClient.java:157-169 | the names chosen from two stretches of console follow one another |
| `Client.ValidLinesAdvance` | ChatClient.java:157-169 | moving the console cursor over a stretch adds that stretch's names after those chosen so far |
| `Client.ChatClient.HandleConsoleLine` | ChatClient.java:95-107 | acts on the line as `Client.Classify` reads it: a game command sends nothing and runs one game with `isPlaying` set around it; chat sends exactly its signed line |
| `Client.ChatClient.ListeningDuty` | ChatClient.java:89-118 | handles exactly the lines before the first `/disconnect`, or only the first line when the server is already closed; sends and games follow `ChatOf` and `Games` of those lines; the socket is closed unless the console ended first |
| `Client.ChatClient.ReadConsole` | ChatClient.java:91-112 | the loop of the input duty: which lines it handles and whether it stopped on a line of its own rather than the console's end |
| `Client.ChatClient.PrintingDuty` | ChatClient.java:130-148 | shows exactly `Visible` of the lines before the first line without a colon; the duty dies on that line, or marks the server closed and exits when the stream ends; it reads nothing if the server is already closed; when the input duty has already closed the socket, the first read fails (`Disconnected`) and nothing is read, shown or exited |
| `Client.ChatClient.ReadLines` | ChatClient.java:132-139 | the loop of the human's printing duty: everything shown up to the first line without a colon, and whether there was one |
| `Client.ChatClient.BotListeningDuty` | ChatBot.java:34-47 | never sends; reads up to and including the first `/disconnect` and closes the socket, closes it without reading once the server is closed, and dies without closing when the console ends first |
| `Client.ChatClient.BotHandleLine` | ChatBot.java:63-73 | one server line: it is printed when its sender parses and is somebody else; it is answered with the canned reply when its text triggers; the line fails exactly when the sender or the text cannot be parsed |
| `Client.ChatClient.BotPrintingDuty` | ChatBot.java:60-83 | the bot shows `Visible` of the lines it parses, plus the line it dies on if its sender parsed, sends `Replies` of the parsed lines, and either dies on the first unparseable line or exits at the end of the stream; when its own input duty has already closed the socket, the first read fails (`Disconnected`) and nothing is read, shown, sent or exited |
| `Client.ChatClient.BotReadLines` | ChatBot.java:62-74 | the loop of the bot's printing duty: everything shown and sent up to the first line that fails, and whether one failed |

## Left out

- Sockets, readers and writers: streams are sequences of lines. `close()` is a
  boolean flag, and a failed `accept` is the server no longer listening.
- Threads, `synchronized` and all races. The model runs each step
  sequentially and treats a flag set by another thread as fixed during a
  call. Examples are `isServerClosed` in the client duties and `isPlaying` in
  the printing duty. It does not model the concurrent modification of
  `connectedClients` by handlers while the EXIT loop or a broadcast walks it.
- `System.exit`, and the uncaught exception that ends the client's main
  thread during the first name choice, are the `exited` flag; `Go` then
  reports `ServerGone` or `ConsoleEnded`. A printing duty ends as `Stopped`
  (the server already known to be closed), `Crashed` (a line it cannot
  parse), `Disconnected` (the socket already closed) or `ServerDown` (the
  stream's end, with `exited`). An input duty that meets the
  console's end dies on the `null` line, which shows up as `stopped == false`
  with the socket left open. Nothing after any of these is modelled.
- `DungeonsOfDoom` is not part of this model. `Client.ChatClient.PlayGame`
  only counts games, with `isPlaying` set around the call.
- `Client.ChatClient.PlayGame`: Java hands the game the whole client
  (`ChatClient.java:98`), and `getUserIn()` (`ChatClient.java:78-80`) exposes
  the console reader. The model assumes the game reads no console lines and
  changes nothing but the game count. A game that did read the console would
  take lines that are then never sent. So the `ChatOf` contracts of
  `Client.ChatClient.HandleConsoleLine`, `Client.ChatClient.ReadConsole` and
  `Client.ChatClient.ListeningDuty` hold under this assumption only.
- Each class's `main` (command-line parsing, the accept loop) and all console
  status printing except the lines a client displays.
- `ChatServer.getUserNames` is not a separate operation. The handshake reads
  the `userNames` field directly.
- The IOException branch of the relay loop. It only logs and loops.
- The fall-through from a handshake IOException into the relay with no name.
- The `ServerSocket` failure in the `ChatServer` constructor.
- `ConnectException` when a client cannot connect.
- `Protocol.Body`: Java counts the `+ 2` of `substring(indexOf(":") + 2)` in UTF-16
  code units; the model's strings are sequences of Unicode characters and it
  counts characters. The two differ only when a character outside the Basic
  Multilingual Plane (an emoji, say) directly follows the first colon: for
  `Bob:` followed by U+1F600 and `hey quacky`, Java's text starts inside the
  emoji's surrogate pair and does not trigger, while the model's text is
  `hey quacky` and does. A line built by
  `Protocol.Format` never has such a character there, since it puts a space
  after the colon. `Protocol.IndexOf` and `Protocol.Sender` count
  characters too, which gives the same split as Java's, because a colon is
  never part of a surrogate pair.
- `Protocol.ToLower`: ASCII letters only. Java's `toLowerCase` also
  lower-cases non-ASCII letters by the locale's rules.
- `Server.ConnectionThread.AwaitName`: Java's handshake accepts the `null`
  line at the end of the stream. It stores `null` as the name and appends
  `null` to `userNames`, and the next relay read removes it again. The model
  records no name and leaves `userNames` unchanged. This differs only in the
  registry's transient state, and in a handler that finds the server closed
  before its first relay read.
- `Client.ChatClient.Go`: the first name is chosen outside Java's `try`.
  There, an end of console ends the main thread with an uncaught exception;
  later ends are caught and call `System.exit`. Both are `ConsoleEnded` with
  `exited`.
- A client's printing of the non-confirmation replies during the handshake,
  and of its welcome text, is console status output and is not modelled.
