/** The client side: a `ChatClient` process and, as a second persona of the
    same class, the `ChatBot` that overrides its name choice and both duties.
    The console and the server connection are sequences of lines: console
    lines and server lines yet to be read, lines written to the server, and
    chat lines printed on the screen. */
module Client {
  import opened Lists
  import opened Protocol
  import opened Bot

  /** Which of the two classes the process runs. */
  datatype Persona = Human | ChatBot

  /** What the input duty does with one console line. */
  datatype Command = Leave | Play | Chat(message: string)

  /** How a printing duty ends: it found the server closed before reading;
      its own socket was already closed, so the first read fails and the duty
      ends quietly (`Disconnected`); the server's stream ended (so the process
      exits); or a line could not be parsed and the duty died on the
      exception. */
  datatype Halt = Stopped | Disconnected | ServerDown | Crashed

  /** How the joining handshake of `go` ends. */
  datatype Joining = Joined | ServerGone | ConsoleEnded

  /** The names each persona can send: the human's must pass the prompt's
      test, the bot's is always its fixed name. */
  predicate NameOk(persona: Persona, name: string)
  {
    match persona
    case Human => ValidUserName(name)
    case ChatBot => name == BotName
  }

  /** The console lines the human's name prompt accepts, in order: the names
      that successive `SetUserName` calls return. */
  function ValidLines(lines: seq<string>): seq<string>
  {
    if |lines| == 0 then []
    else
      var last := lines[|lines| - 1];
      ValidLines(lines[..|lines| - 1]) + (if ValidUserName(last) then [last] else [])
  }

  /** The names chosen are exactly the console's valid lines, and there are no
      more of them than console lines. */
  lemma {:induction false} ValidLinesMembers(lines: seq<string>)
    ensures |ValidLines(lines)| <= |lines|
    ensures forall x :: x in ValidLines(lines) <==> x in lines && ValidUserName(x)
  {
    if |lines| > 0 {
      var init, last := lines[..|lines| - 1], lines[|lines| - 1];
      assert lines == init + [last];
      ValidLinesMembers(init);
    }
  }

  /** Lines the prompt rejects add no names. */
  lemma {:induction false} ValidLinesSkip(input: seq<string>, pos: nat, k: nat)
    requires pos + k <= |input|
    requires forall j :: 0 <= j < k ==> !ValidUserName(input[pos..][j])
    ensures ValidLines(input[..pos + k]) == ValidLines(input[..pos])
    decreases k
  {
    if k > 0 {
      ValidLinesSkip(input, pos, k - 1);
      assert input[..pos + k][..pos + k - 1] == input[..pos + k - 1];
      assert input[..pos + k][pos + k - 1] == input[pos..][k - 1];
    }
  }

  /** The names chosen from two stretches of console are those of the first
      followed by those of the second. */
  lemma {:induction false} ValidLinesAppend(a: seq<string>, b: seq<string>)
    ensures ValidLines(a + b) == ValidLines(a) + ValidLines(b)
    decreases |b|
  {
    if |b| == 0 {
      assert a + b == a;
    } else {
      var init, last := b[..|b| - 1], b[|b| - 1];
      ValidLinesAppend(a, init);
      assert (a + b)[..|a + b| - 1] == a + init;
      assert (a + b)[|a + b| - 1] == last;
      AppendAssoc(ValidLines(a), ValidLines(init), if ValidUserName(last) then [last] else []);
    }
  }

  /** Moving the console cursor over a stretch adds the names chosen from
      it to the names chosen so far. */
  lemma ValidLinesAdvance(input: seq<string>, pos: nat, used: nat)
    requires pos + used <= |input|
    ensures ValidLines(input[..pos + used]) == ValidLines(input[..pos]) + ValidLines(input[pos..][..used])
  {
    var before, stretch := input[..pos], input[pos..][..used];
    assert before + stretch == input[..pos + used];
    ValidLinesAppend(before, stretch);
  }

  /** The input duty's reading of a console line: the two sentinels, and
      everything else as a chat message signed with the client's name. */
  function Classify(name: string, line: string): (c: Command)
    ensures c == Leave <==> line == DisconnectCommand
    ensures c == Play <==> line == PlayCommand
    ensures c.Chat? ==> c.message == Format(name, line)
  {
    if line == DisconnectCommand then Leave
    else if line == PlayCommand then Play
    else Chat(Format(name, line))
  }

  /** A chat line signed with a name without a colon parses back, at every
      receiver, to that name and the line typed. */
  lemma ClassifiedChatParses(name: string, line: string)
    requires ':' !in name
    ensures Classify(name, line).Chat? ==>
              Sender(Classify(name, line).message) == Some(name) &&
              Body(Classify(name, line).message) == Some(line)
  {
    FormatRoundTrip(name, line);
  }

  /** The line a command sends to the server: the signed message for chat,
      nothing for the two sentinels. */
  function Outgoing(c: Command): (r: seq<string>)
    ensures |r| <= 1
    ensures r != [] <==> c.Chat?
  {
    if c.Chat? then [c.message] else []
  }

  /** The display filter of the printing duty: `None` for a line without a
      colon, where parsing the sender throws; otherwise whether the line is
      printed, which it is iff it was not sent under `me` and the user is not
      in the game. */
  function Shows(me: string, playing: bool, line: string): (r: Option<bool>)
    ensures r.None? <==> ':' !in line
    ensures r == Some(true) ==> !playing
    ensures r == Some(true) ==> Sender(line) != Some(me)
    ensures !playing && Sender(line).Some? && Sender(line) != Some(me) ==> r == Some(true)
  {
    match Sender(line)
    case None => None
    case Some(sender) => Some(me != sender && !playing)
  }

  /** Self-echo suppression: the server's echo of one's own message is never
      printed, in or out of the game. */
  lemma OwnEchoHidden(me: string, playing: bool, body: string)
    requires ':' !in me
    ensures Shows(me, playing, Format(me, body)) == Some(false)
  {
    FormatRoundTrip(me, body);
  }

  /** A message from someone else is printed whenever the user is not in the
      game. */
  lemma OthersShown(me: string, other: string, body: string)
    requires ':' !in other && other != me
    ensures Shows(me, false, Format(other, body)) == Some(true)
  {
    FormatRoundTrip(other, body);
  }

  /** The chat messages the input duty sends for console lines that are not
      "/disconnect": one per line, in order, except for "/play DOD". */
  function ChatOf(name: string, lines: seq<string>): seq<string>
  {
    if |lines| == 0 then []
    else
      var last := lines[|lines| - 1];
      ChatOf(name, lines[..|lines| - 1]) + (if last == PlayCommand then [] else [Format(name, last)])
  }

  /** The number of games the input duty runs for console lines that are not
      "/disconnect": one per "/play DOD". */
  function Games(lines: seq<string>): nat
  {
    if |lines| == 0 then 0
    else Games(lines[..|lines| - 1]) + (if lines[|lines| - 1] == PlayCommand then 1 else 0)
  }

  /** `Games` counts the occurrences of the game command. */
  lemma {:induction false} GamesCountsPlays(lines: seq<string>)
    ensures Games(lines) == multiset(lines)[PlayCommand]
  {
    if |lines| > 0 {
      var init, last := lines[..|lines| - 1], lines[|lines| - 1];
      assert lines == init + [last];
      GamesCountsPlays(init);
      assert multiset(lines) == multiset(init) + multiset{last};
    }
  }

  /** Each chat line sent is the signed form of one console line, and the
      game command is never among them. */
  lemma {:induction false} ChatOfShape(name: string, lines: seq<string>)
    ensures |ChatOf(name, lines)| + Games(lines) == |lines|
    ensures forall m :: m in ChatOf(name, lines) ==>
              exists l :: l in lines && l != PlayCommand && m == Format(name, l)
  {
    if |lines| > 0 {
      var init, last := lines[..|lines| - 1], lines[|lines| - 1];
      assert lines == init + [last];
      ChatOfShape(name, init);
      forall m | m in ChatOf(name, lines)
        ensures exists l :: l in lines && l != PlayCommand && m == Format(name, l)
      {
        if m in ChatOf(name, init) {
          var l :| l in init && l != PlayCommand && m == Format(name, l);
          assert l in lines;
        } else {
          assert last in lines;
        }
      }
    }
  }

  /** `ChatOf` and `Games` over one more console line. */
  lemma ChatOfStep(name: string, lines: seq<string>, k: nat)
    requires k < |lines|
    ensures ChatOf(name, lines[..k + 1]) ==
            ChatOf(name, lines[..k]) + (if lines[k] == PlayCommand then [] else [Format(name, lines[k])])
    ensures Games(lines[..k + 1]) == Games(lines[..k]) + (if lines[k] == PlayCommand then 1 else 0)
  {
    assert lines[..k + 1][..k] == lines[..k];
  }

  /** The lines a printing duty shows, in order, from lines that all parse. */
  function Visible(me: string, playing: bool, lines: seq<string>): seq<string>
  {
    if |lines| == 0 then []
    else
      var last := lines[|lines| - 1];
      Visible(me, playing, lines[..|lines| - 1]) +
        (if Shows(me, playing, last) == Some(true) then [last] else [])
  }

  /** Everything shown is a line of the input sent by somebody else, and
      nothing at all is shown while the user is in the game. */
  lemma {:induction false} VisibleFiltered(me: string, playing: bool, lines: seq<string>)
    ensures forall l :: l in Visible(me, playing, lines) ==>
              l in lines && Sender(l).Some? && Sender(l) != Some(me)
    ensures playing ==> Visible(me, playing, lines) == []
  {
    if |lines| > 0 {
      var init := lines[..|lines| - 1];
      VisibleFiltered(me, playing, init);
      assert forall l :: l in init ==> l in lines;
    }
  }

  /** The round trip of a whole session: when the server echoes back the
      messages a client has sent, that client prints none of them. */
  lemma {:induction false} OwnChatNeverShown(me: string, playing: bool, lines: seq<string>)
    requires ':' !in me
    ensures Visible(me, playing, ChatOf(me, lines)) == []
  {
    if |lines| > 0 {
      var init, last := lines[..|lines| - 1], lines[|lines| - 1];
      OwnChatNeverShown(me, playing, init);
      if last != PlayCommand {
        var echo := Format(me, last);
        var sent := ChatOf(me, init) + [echo];
        assert ChatOf(me, lines) == sent;
        assert sent[..|sent| - 1] == ChatOf(me, init) && sent[|sent| - 1] == echo;
        OwnEchoHidden(me, playing, last);
        assert Visible(me, playing, sent) == Visible(me, playing, ChatOf(me, init));
      } else {
        assert ChatOf(me, lines) == ChatOf(me, init);
      }
    }
  }

  /** A bot duty survives a line when it can parse both the sender and the
      trigger text. */
  predicate BotParses(line: string)
  {
    Sender(line).Some? && Body(line).Some?
  }

  /** The replies the bot sends for lines that all parse: one per triggering
      line, in order. */
  function Replies(name: string, lines: seq<string>): seq<string>
  {
    if |lines| == 0 then []
    else
      var last := lines[|lines| - 1];
      Replies(name, lines[..|lines| - 1]) + (if Triggers(last) then [Reply(name)] else [])
  }

  /** Every reply is the bot's canned reply. */
  lemma {:induction false} RepliesAreCanned(name: string, lines: seq<string>)
    ensures |Replies(name, lines)| <= |lines|
    ensures forall r :: r in Replies(name, lines) ==> r == Reply(name)
  {
    if |lines| > 0 {
      RepliesAreCanned(name, lines[..|lines| - 1]);
    }
  }

  /** The bot's replies, when the server echoes them back to it, neither
      trigger further replies nor get printed. */
  lemma {:induction false} RepliesQuiet(name: string, lines: seq<string>)
    requires ':' !in name
    ensures Replies(name, Replies(name, lines)) == []
    ensures Visible(name, false, Replies(name, lines)) == []
  {
    if |lines| > 0 {
      var init, last := lines[..|lines| - 1], lines[|lines| - 1];
      RepliesQuiet(name, init);
      if Triggers(last) {
        var sent := Replies(name, init) + [Reply(name)];
        assert Replies(name, lines) == sent;
        assert sent[..|sent| - 1] == Replies(name, init);
        ReplyDoesNotRetrigger(name);
        OwnEchoHidden(name, false, "Quack Quack!!");
      } else {
        assert Replies(name, lines) == Replies(name, init);
      }
    }
  }

  /** `Visible` over one more line of the input. */
  lemma VisibleStep(me: string, playing: bool, lines: seq<string>, k: nat)
    requires k < |lines|
    ensures Visible(me, playing, lines[..k + 1]) ==
            Visible(me, playing, lines[..k]) + (if Shows(me, playing, lines[k]) == Some(true) then [lines[k]] else [])
  {
    assert lines[..k + 1][..k] == lines[..k];
  }

  /** `Replies` over one more line of the input. */
  lemma RepliesStep(name: string, lines: seq<string>, k: nat)
    requires k < |lines|
    ensures Replies(name, lines[..k + 1]) ==
            Replies(name, lines[..k]) + (if Triggers(lines[k]) then [Reply(name)] else [])
  {
    assert lines[..k + 1][..k] == lines[..k];
  }

  /** The position of the first line without a colon, where the human's
      printing duty dies, or the length of the input when every line has one. */
  function CrashPoint(lines: seq<string>): (k: nat)
    ensures k <= |lines|
    ensures forall j :: 0 <= j < k ==> ':' in lines[j]
    ensures k < |lines| ==> ':' !in lines[k]
  {
    FirstWhere(lines, (l: string) => ':' !in l)
  }

  /** One more line shown or not, on top of what was shown before. */
  lemma ShownStep(me: string, playing: bool, lines: seq<string>, read: nat,
                  shown: seq<string>, display: seq<string>)
    requires read < |lines|
    requires display == shown + Visible(me, playing, lines[..read]) +
                        (if Shows(me, playing, lines[read]) == Some(true) then [lines[read]] else [])
    ensures display == shown + Visible(me, playing, lines[..read + 1])
  {
    VisibleStep(me, playing, lines, read);
    AppendAssoc(shown, Visible(me, playing, lines[..read]),
                if Shows(me, playing, lines[read]) == Some(true) then [lines[read]] else []);
  }

  /** The position of the first line the bot's printing duty cannot parse,
      or the length of the input when it parses them all. */
  function BotCrashPoint(lines: seq<string>): (k: nat)
    ensures k <= |lines|
    ensures forall j :: 0 <= j < k ==> BotParses(lines[j])
    ensures k < |lines| ==> !BotParses(lines[k])
  {
    FirstWhere(lines, (l: string) => !BotParses(l))
  }

  /** The bot's printing duty shows the line it dies on if the sender parses
      and is somebody else. */
  function BotShownAtCrash(me: string, lines: seq<string>, k: nat): seq<string>
    requires k <= |lines|
  {
    if k < |lines| && Shows(me, false, lines[k]) == Some(true) then [lines[k]] else []
  }

  /** One server line in the bot's read loop, handled with the effects that
      `BotHandleLine` states: a line that fails is the crash point and adds
      only what `BotShownAtCrash` shows; one that parses extends the shown
      and the sent lines by one step of `Visible` and `Replies`. */
  lemma BotReadStep(me: string, lines: seq<string>, read: nat, shown: seq<string>, sent: seq<string>,
                    display: seq<string>, out: seq<string>, crashed: bool)
    requires read < |lines| && read <= BotCrashPoint(lines)
    requires crashed <==> !BotParses(lines[read])
    requires display == shown + Visible(me, false, lines[..read]) +
                        (if Shows(me, false, lines[read]) == Some(true) then [lines[read]] else [])
    requires out == sent + Replies(me, lines[..read]) +
                    (if !crashed && Triggers(lines[read]) then [Reply(me)] else [])
    ensures crashed ==>
              read == BotCrashPoint(lines) &&
              display == shown + Visible(me, false, lines[..read]) + BotShownAtCrash(me, lines, read) &&
              out == sent + Replies(me, lines[..read])
    ensures !crashed ==>
              read < BotCrashPoint(lines) &&
              display == shown + Visible(me, false, lines[..read + 1]) &&
              out == sent + Replies(me, lines[..read + 1])
  {
    if !crashed {
      ShownStep(me, false, lines, read, shown, display);
      RepliesStep(me, lines, read);
      AppendAssoc(sent, Replies(me, lines[..read]), if Triggers(lines[read]) then [Reply(me)] else []);
    }
  }

  class ChatClient {
    const persona: Persona
    var name: string
    /** Console lines not yet read; reading past the end yields `null`. */
    var userIn: seq<string>
    /** Server lines not yet read; reading past the end yields `null`. */
    var serverIn: seq<string>
    /** Lines written to the server. */
    var serverOut: seq<string>
    /** Chat lines printed to the user. */
    var display: seq<string>
    var isServerClosed: bool
    var isPlaying: bool
    /** Games started; the game itself is not modelled. */
    var gamesPlayed: nat
    /** Whether the client closed its socket. */
    var socketClosed: bool
    /** Whether the process has ended (`System.exit`, or an uncaught
        exception in the handshake). */
    var exited: bool

    constructor (persona: Persona, console: seq<string>, fromServer: seq<string>)
      ensures this.persona == persona && userIn == console && serverIn == fromServer
      ensures serverOut == [] && display == [] && gamesPlayed == 0
      ensures !isServerClosed && !isPlaying && !socketClosed && !exited
    {
      this.persona := persona;
      name := "";
      userIn := console;
      serverIn := fromServer;
      serverOut := [];
      display := [];
      isServerClosed := false;
      isPlaying := false;
      gamesPlayed := 0;
      socketClosed := false;
      exited := false;
    }

    /** Choosing a name. The human is prompted until a valid name is typed;
        when the console ends first there is no name (`ok` is false). The bot
        takes its fixed name and reads nothing. */
    method SetUserName() returns (ok: bool)
      modifies this`userIn, this`name
      ensures persona == ChatBot ==> ok && name == BotName && userIn == old(userIn)
      ensures persona == Human ==>
                var k := FirstWhere(old(userIn), ValidUserName);
                (ok <==> k < |old(userIn)|) &&
                (ok ==> name == old(userIn)[k] && userIn == old(userIn)[k + 1..]) &&
                (!ok ==> userIn == [])
      ensures ok ==> NameOk(persona, name)
    {
      if persona == ChatBot {
        name := BotName;
        ok := true;
        return;
      }
      ghost var input := userIn;
      ghost var tried := 0;
      while true
        invariant 0 <= tried <= |input| && userIn == input[tried..]
        invariant forall j :: 0 <= j < tried ==> !ValidUserName(input[j])
        decreases |userIn|
      {
        if userIn == [] {
          FirstWhereIs(input, ValidUserName, tried);
          ok := false;
          return;
        }
        name := userIn[0];
        userIn := userIn[1..];
        if ValidUserName(name) {
          FirstWhereIs(input, ValidUserName, tried);
          ok := true;
          return;
        }
        tried := tried + 1;
      }
    }

    /** The opaque game, entered with `isPlaying` set. */
    method PlayGame()
      requires isPlaying
      modifies this`gamesPlayed
      ensures gamesPlayed == old(gamesPlayed) + 1
    {
      gamesPlayed := gamesPlayed + 1;
    }

    /** The joining handshake of `go`: send a name, read the reply, and repeat
        with a newly chosen name until the reply is the confirmation. The
        process ends instead if the server's stream ends (`ServerGone`) or if
        the console ends while a name is being chosen (`ConsoleEnded`).
        `attempts` counts the names sent. */
    method Go() returns (joining: Joining, attempts: nat, ghost consumed: nat, ghost names: seq<string>)
      modifies this`userIn, this`name, this`serverIn, this`serverOut, this`exited
      ensures serverOut == old(serverOut) + names && |names| == attempts
      ensures forall j :: 0 <= j < |names| ==> NameOk(persona, names[j])
      ensures joining == Joined ==>
                1 <= attempts <= |old(serverIn)| &&
                attempts == FirstIndex(old(serverIn), Confirmation) + 1 &&
                serverIn == old(serverIn)[attempts..] &&
                NameOk(persona, name) && names[attempts - 1] == name && exited == old(exited)
      ensures joining == ServerGone ==>
                Confirmation !in old(serverIn) && serverIn == [] &&
                attempts == |old(serverIn)| + 1 && exited
      ensures joining == ConsoleEnded ==>
                persona == Human && userIn == [] && exited &&
                attempts <= |old(serverIn)| && Confirmation !in old(serverIn)[..attempts] &&
                serverIn == old(serverIn)[attempts..]
      ensures joining != Joined ==> exited
      ensures consumed <= |old(userIn)| && userIn == old(userIn)[consumed..]
      ensures persona == ChatBot ==> consumed == 0
      ensures persona == Human ==> names == ValidLines(old(userIn)[..consumed])
      ensures persona == Human && joining != ConsoleEnded ==>
                0 < consumed && old(userIn)[consumed - 1] == name
      ensures joining == ConsoleEnded ==> consumed == |old(userIn)|
    {
      ghost var replies := serverIn;
      ghost var sent := serverOut;
      ghost var input := userIn;
      names := [];
      ghost var pos: nat := 0;
      attempts := 0;
      consumed := 0;
      while true
        invariant pos <= |input| && userIn == input[pos..] && consumed == pos
        invariant serverOut == sent + names && |names| == attempts
        invariant forall j :: 0 <= j < |names| ==> NameOk(persona, names[j])
        invariant persona == ChatBot ==> pos == 0
        invariant persona == Human ==>
                    names == ValidLines(input[..pos]) &&
                    (pos == 0 <==> attempts == 0) && (pos > 0 ==> input[pos - 1] == name)
        invariant attempts <= |replies| && serverIn == replies[attempts..]
        invariant Confirmation !in replies[..attempts]
        invariant exited == old(exited)
        decreases |serverIn|
      {
        var outcome, used := JoinRound(input, pos, replies, attempts);
        if outcome != Some(ConsoleEnded) {
          names := names + [name];
          attempts := attempts + 1;
        }
        pos := pos + used;
        consumed := pos;
        if outcome.Some? {
          joining := outcome.value;
          return;
        }
      }
    }

    /** One round of the joining handshake: send a chosen name and read the
        server's reply to it, `tried` replies into the server's stream. The
        round ends the handshake when the console ends before a name is
        chosen (nothing is sent or read), when the server's stream has ended,
        or on the confirmation; otherwise (`None`) the name was refused. */
    method JoinRound(ghost input: seq<string>, ghost pos: nat, ghost replies: seq<string>, ghost tried: nat)
        returns (outcome: Option<Joining>, ghost used: nat)
      requires pos <= |input| && userIn == input[pos..]
      requires tried <= |replies| && serverIn == replies[tried..] && Confirmation !in replies[..tried]
      modifies this`userIn, this`name, this`serverOut, this`serverIn, this`exited
      ensures pos + used <= |input| && userIn == input[pos + used..]
      ensures outcome != Some(ConsoleEnded) ==> NameOk(persona, name) && serverOut == old(serverOut) + [name]
      ensures outcome == Some(ConsoleEnded) ==>
                persona == Human && pos + used == |input| && serverOut == old(serverOut) &&
                serverIn == old(serverIn)
      ensures persona == ChatBot ==> outcome != Some(ConsoleEnded) && used == 0
      ensures persona == Human ==>
                ValidLines(input[..pos + used]) ==
                ValidLines(input[..pos]) + (if outcome == Some(ConsoleEnded) then [] else [name])
      ensures persona == Human && outcome != Some(ConsoleEnded) ==> used > 0 && input[pos + used - 1] == name
      ensures outcome == Some(ServerGone) ==> tried == |replies| && Confirmation !in replies && serverIn == []
      ensures outcome == Some(Joined) ==>
                tried < |replies| && tried == FirstIndex(replies, Confirmation) && serverIn == replies[tried + 1..]
      ensures outcome == None ==>
                tried < |replies| && Confirmation !in replies[..tried + 1] && serverIn == replies[tried + 1..]
      ensures exited == (old(exited) || outcome == Some(ServerGone) || outcome == Some(ConsoleEnded))
    {
      var ok;
      ok, used := SendName();
      ValidLinesAdvance(input, pos, used);
      assert input[pos..][used..] == input[pos + used..];
      if !ok {
        exited := true;
        outcome := Some(ConsoleEnded);
      } else if serverIn == [] {
        assert replies[..tried] == replies;
        exited := true;
        outcome := Some(ServerGone);
      } else {
        var reply := serverIn[0];
        serverIn := serverIn[1..];
        if reply == Confirmation {
          FirstIndexIs(replies, Confirmation, tried);
          outcome := Some(Joined);
        } else {
          assert replies[..tried + 1] == replies[..tried] + [reply];
          outcome := None;
        }
      }
    }

    /** One round of the joining handshake: choose a name and send it.
        `used` counts the console lines the choice read. The human's choice
        reads up to and including the next valid line, which becomes the
        name; when the console ends first nothing is sent. The bot reads
        nothing and sends its fixed name. */
    method SendName() returns (ok: bool, ghost used: nat)
      modifies this`userIn, this`name, this`serverOut
      ensures used <= |old(userIn)| && userIn == old(userIn)[used..]
      ensures ok ==> NameOk(persona, name) && serverOut == old(serverOut) + [name]
      ensures !ok ==> persona == Human && used == |old(userIn)| && serverOut == old(serverOut)
      ensures persona == ChatBot ==> ok && used == 0
      ensures persona == Human ==>
                ValidLines(old(userIn)[..used]) == (if ok then [name] else [])
      ensures persona == Human && ok ==> used > 0 && old(userIn)[used - 1] == name
    {
      ghost var input := userIn;
      ghost var skipped := if persona == Human then FirstWhere(userIn, ValidUserName) else 0;
      ok := SetUserName();
      if persona == ChatBot {
        used := 0;
      } else {
        ValidLinesSkip(input, 0, skipped);
        assert input[..0] == [];
        if ok {
          used := skipped + 1;
          assert input[..used][..skipped] == input[..skipped];
        } else {
          used := |input|;
          assert input[0..] == input;
        }
      }
      if ok {
        serverOut := serverOut + [name];
      }
    }

    /** One console line other than "/disconnect" in the input duty, as
        `Classify` reads it: the game command runs the game with `isPlaying`
        set around it; a chat line is sent to the server signed with the
        name. */
    method HandleConsoleLine(line: string)
      modifies this`serverOut, this`isPlaying, this`gamesPlayed
      ensures serverOut == old(serverOut) + Outgoing(Classify(name, line))
      ensures gamesPlayed == old(gamesPlayed) + (if Classify(name, line) == Play then 1 else 0)
      ensures isPlaying == (old(isPlaying) && Classify(name, line) != Play)
    {
      var command := Classify(name, line);
      if command == Play {
        isPlaying := true;
        PlayGame();
        isPlaying := false;
      } else if command.Chat? {
        serverOut := serverOut + [command.message];
      }
    }

    /** The client's input duty. Console lines are handled up to the first
        "/disconnect": "/play DOD" runs the game with `isPlaying` set around
        it and sends nothing, every other line is sent signed with the name.
        If the server is already known to be closed, the duty stops after the
        first line. It closes the socket on "/disconnect" or on that stop;
        when the console ends first it dies on the `null` line instead.
        `handled` counts the lines handled. */
    method ListeningDuty() returns (handled: nat)
      requires persona == Human
      modifies this`userIn, this`serverOut, this`isPlaying, this`gamesPlayed, this`socketClosed
      ensures !isServerClosed ==>
                var k := FirstIndex(old(userIn), DisconnectCommand);
                handled == k &&
                (k < |old(userIn)| ==> socketClosed && userIn == old(userIn)[k + 1..]) &&
                (k == |old(userIn)| ==> socketClosed == old(socketClosed) && userIn == [])
      ensures isServerClosed && old(userIn) == [] ==>
                handled == 0 && userIn == [] && socketClosed == old(socketClosed)
      ensures isServerClosed && old(userIn) != [] ==>
                handled == (if old(userIn)[0] == DisconnectCommand then 0 else 1) &&
                userIn == old(userIn)[1..] && socketClosed
      ensures serverOut == old(serverOut) + ChatOf(name, old(userIn)[..handled])
      ensures gamesPlayed == old(gamesPlayed) + Games(old(userIn)[..handled])
      ensures isPlaying == (old(isPlaying) && PlayCommand !in old(userIn)[..handled])
    {
      var stopped;
      handled, stopped := ReadConsole();
      if stopped {
        socketClosed := true;
      }
    }

    /** The loop of the input duty. `stopped` tells that it left the loop on
        "/disconnect" or on the closed-server check, where the duty goes on to
        close the socket; otherwise the console ended and the duty dies. */
    method ReadConsole() returns (handled: nat, stopped: bool)
      modifies this`userIn, this`serverOut, this`isPlaying, this`gamesPlayed
      ensures !isServerClosed ==>
                handled == FirstIndex(old(userIn), DisconnectCommand) &&
                (stopped <==> handled < |old(userIn)|)
      ensures !isServerClosed ==> userIn == if stopped then old(userIn)[handled + 1..] else []
      ensures isServerClosed ==>
                (stopped <==> old(userIn) != []) &&
                handled == (if old(userIn) != [] && old(userIn)[0] != DisconnectCommand then 1 else 0)
      ensures isServerClosed ==> userIn == if stopped then old(userIn)[1..] else []
      ensures serverOut == old(serverOut) + ChatOf(name, old(userIn)[..handled])
      ensures gamesPlayed == old(gamesPlayed) + Games(old(userIn)[..handled])
      ensures isPlaying == (old(isPlaying) && PlayCommand !in old(userIn)[..handled])
    {
      ghost var input := userIn;
      handled := 0;
      while true
        invariant handled <= |input| && userIn == input[handled..]
        invariant DisconnectCommand !in input[..handled]
        invariant isServerClosed ==> handled == 0
        invariant serverOut == old(serverOut) + ChatOf(name, input[..handled])
        invariant gamesPlayed == old(gamesPlayed) + Games(input[..handled])
        invariant isPlaying == (old(isPlaying) && PlayCommand !in input[..handled])
        decreases |userIn|
      {
        if userIn == [] {
          // the `null` line: `equals` throws and the duty dies
          assert input[..handled] == input;
          return handled, false;
        }
        var line := userIn[0];
        userIn := userIn[1..];
        if line == DisconnectCommand {
          FirstIndexIs(input, DisconnectCommand, handled);
          return handled, true;
        }
        assert input[..handled + 1] == input[..handled] + [line];
        HandleConsoleLine(line);
        assert serverOut == old(serverOut) + ChatOf(name, input[..handled + 1]) by {
          ChatOfStep(name, input, handled);
          AppendAssoc(old(serverOut), ChatOf(name, input[..handled]),
                      if line == PlayCommand then [] else [Format(name, line)]);
        }
        assert gamesPlayed == old(gamesPlayed) + Games(input[..handled + 1]) by {
          ChatOfStep(name, input, handled);
        }
        handled := handled + 1;
        if isServerClosed {
          return handled, true;
        }
      }
    }

    /** The client's printing duty: while the server is not known to be
        closed, reads server lines and prints each one sent by somebody else
        while the user is not in the game. A line without a colon kills the
        duty; the end of the server's stream marks the server closed and ends
        the process. When the input duty has already closed the socket, the
        first read fails and the duty ends without reading, showing or
        exiting. */
    method PrintingDuty() returns (halt: Halt)
      requires persona == Human
      modifies this`serverIn, this`display, this`isServerClosed, this`exited
      ensures old(isServerClosed) ==>
                halt == Stopped && serverIn == old(serverIn) && display == old(display) &&
                isServerClosed && exited == old(exited)
      ensures !old(isServerClosed) && socketClosed ==>
                halt == Disconnected && serverIn == old(serverIn) && display == old(display) &&
                !isServerClosed && exited == old(exited)
      ensures !old(isServerClosed) && !socketClosed ==>
                var lines := old(serverIn);
                var k := CrashPoint(lines);
                display == old(display) + Visible(name, isPlaying, lines[..k]) &&
                (k < |lines| ==>
                   halt == Crashed && serverIn == lines[k + 1..] &&
                   !isServerClosed && exited == old(exited)) &&
                (k == |lines| ==> halt == ServerDown && serverIn == [] && isServerClosed && exited)
    {
      if isServerClosed {
        halt := Stopped;
        return;
      }
      if socketClosed {
        // `readLine` on the closed socket throws `IOException`
        halt := Disconnected;
        return;
      }
      // Nothing else sets `isServerClosed` while the duty runs, so after the
      // first test the loop only ends on a failed line or the stream's end.
      var crashed := ReadLines();
      if crashed {
        halt := Crashed;
      } else {
        isServerClosed := true;
        exited := true;
        halt := ServerDown;
      }
    }

    /** The loop of the human's printing duty: it shows server lines until
        one has no colon (`crashed`) or the stream ends. */
    method ReadLines() returns (crashed: bool)
      modifies this`serverIn, this`display
      ensures var lines := old(serverIn);
              display == old(display) + Visible(name, isPlaying, lines[..CrashPoint(lines)])
      ensures crashed <==> CrashPoint(old(serverIn)) < |old(serverIn)|
      ensures crashed ==> serverIn == old(serverIn)[CrashPoint(old(serverIn)) + 1..]
      ensures !crashed ==> serverIn == []
    {
      ghost var lines := serverIn;
      ghost var crash := CrashPoint(lines);
      ghost var read := 0;
      while serverIn != []
        invariant read <= crash && serverIn == lines[read..]
        invariant display == old(display) + Visible(name, isPlaying, lines[..read])
        decreases |serverIn|
      {
        var response := serverIn[0];
        serverIn := serverIn[1..];
        assert response == lines[read];
        if ':' !in response {
          crashed := true;
          return;
        }
        if Shows(name, isPlaying, response) == Some(true) {
          display := display + [response];
        }
        ShownStep(name, isPlaying, lines, read, old(display), display);
        read := read + 1;
      }
      assert lines[..read] == lines;
      crashed := false;
    }

    /** The bot's input duty: console lines are read, and never sent, until
        "/disconnect", which closes the socket; a bot that already knows the
        server is closed closes it without reading. When the console ends
        first the duty dies on the `null` line. `read` counts the lines read. */
    method BotListeningDuty() returns (read: nat)
      requires persona == ChatBot
      modifies this`userIn, this`socketClosed
      ensures serverOut == old(serverOut)
      ensures isServerClosed ==> read == 0 && userIn == old(userIn) && socketClosed
      ensures !isServerClosed ==>
                var k := FirstIndex(old(userIn), DisconnectCommand);
                (k < |old(userIn)| ==> read == k + 1 && userIn == old(userIn)[k + 1..] && socketClosed) &&
                (k == |old(userIn)| ==> read == k && userIn == [] && socketClosed == old(socketClosed))
    {
      ghost var input := userIn;
      read := 0;
      var line := "";
      while line != DisconnectCommand
        invariant read <= |input| && userIn == input[read..]
        invariant DisconnectCommand !in input[..if read == 0 then 0 else read - 1]
        invariant read > 0 ==> line == input[read - 1]
        invariant read == 0 ==> line == ""
        invariant isServerClosed ==> read == 0
        invariant socketClosed == old(socketClosed)
        decreases |userIn|, if line == DisconnectCommand then 0 else 1
      {
        if isServerClosed {
          break;
        }
        if userIn == [] {
          assert input[..read] == input;
          if read > 0 {
            assert input == input[..read - 1] + [line];
          }
          return;
        }
        if read > 0 {
          assert input[..read] == input[..read - 1] + [line];
        }
        line := userIn[0];
        userIn := userIn[1..];
        read := read + 1;
      }
      if !isServerClosed {
        FirstIndexIs(input, DisconnectCommand, read - 1);
      }
      socketClosed := true;
    }

    /** The bot's printing duty on one server line: it parses the sender,
        prints the line when somebody else sent it, parses the text and
        answers the trigger phrase. `crashed` tells that one of the two
        parses failed, which ends the duty. */
    method BotHandleLine(response: string) returns (crashed: bool)
      modifies this`display, this`serverOut
      ensures crashed <==> !BotParses(response)
      ensures display == old(display) + (if Shows(name, false, response) == Some(true) then [response] else [])
      ensures serverOut == old(serverOut) + (if !crashed && Triggers(response) then [Reply(name)] else [])
    {
      crashed := false;
      var sender := Sender(response);
      if sender.None? {
        crashed := true;
        return;
      }
      if name != sender.value {
        display := display + [response];
      }
      var text := Body(response);
      if text.None? {
        crashed := true;
        return;
      }
      if ToLower(text.value) == TriggerPhrase {
        serverOut := serverOut + [Reply(name)];
      }
    }

    /** The bot's printing duty. Each parsed line is printed when somebody
        else sent it, with no game check, and answered with the canned reply
        when its text is the trigger phrase. The duty dies on the first line
        whose sender or text cannot be parsed, after printing it if its
        sender parsed; the end of the server's stream marks the server closed
        and ends the process. As for the human, a socket the input duty has
        already closed ends the duty at its first read. */
    method BotPrintingDuty() returns (halt: Halt)
      requires persona == ChatBot
      modifies this`serverIn, this`display, this`serverOut, this`isServerClosed, this`exited
      ensures old(isServerClosed) ==>
                halt == Stopped && serverIn == old(serverIn) && display == old(display) &&
                serverOut == old(serverOut) && isServerClosed && exited == old(exited)
      ensures !old(isServerClosed) && socketClosed ==>
                halt == Disconnected && serverIn == old(serverIn) && display == old(display) &&
                serverOut == old(serverOut) && !isServerClosed && exited == old(exited)
      ensures !old(isServerClosed) && !socketClosed ==>
                var lines := old(serverIn);
                var k := BotCrashPoint(lines);
                display == old(display) + Visible(name, false, lines[..k]) + BotShownAtCrash(name, lines, k) &&
                serverOut == old(serverOut) + Replies(name, lines[..k]) &&
                (k < |lines| ==>
                   halt == Crashed && serverIn == lines[k + 1..] &&
                   !isServerClosed && exited == old(exited)) &&
                (k == |lines| ==> halt == ServerDown && serverIn == [] && isServerClosed && exited)
    {
      if isServerClosed {
        halt := Stopped;
        return;
      }
      if socketClosed {
        halt := Disconnected;
        return;
      }
      var crashed := BotReadLines();
      if crashed {
        halt := Crashed;
      } else {
        isServerClosed := true;
        exited := true;
        halt := ServerDown;
      }
    }

    /** The loop of the bot's printing duty: it handles server lines until one
        fails to parse (`crashed`) or the stream ends. */
    method BotReadLines() returns (crashed: bool)
      modifies this`serverIn, this`display, this`serverOut
      ensures var lines := old(serverIn);
              display == old(display) + Visible(name, false, lines[..BotCrashPoint(lines)]) +
                         BotShownAtCrash(name, lines, BotCrashPoint(lines))
      ensures var lines := old(serverIn);
              serverOut == old(serverOut) + Replies(name, lines[..BotCrashPoint(lines)])
      ensures crashed <==> BotCrashPoint(old(serverIn)) < |old(serverIn)|
      ensures crashed ==> serverIn == old(serverIn)[BotCrashPoint(old(serverIn)) + 1..]
      ensures !crashed ==> serverIn == []
    {
      ghost var lines := serverIn;
      ghost var crash := BotCrashPoint(lines);
      ghost var read := 0;
      while serverIn != []
        invariant read <= |lines| && serverIn == lines[read..]
        invariant read <= crash
        invariant display == old(display) + Visible(name, false, lines[..read])
        invariant serverOut == old(serverOut) + Replies(name, lines[..read])
        decreases |serverIn|
      {
        var response := serverIn[0];
        serverIn := serverIn[1..];
        assert response == lines[read] && serverIn == lines[read + 1..];
        crashed := BotHandleLine(response);
        BotReadStep(name, lines, read, old(display), old(serverOut), display, serverOut, crashed);
        if crashed {
          return;
        }
        read := read + 1;
      }
      assert lines[..read] == lines;
      assert BotShownAtCrash(name, lines, read) == [];
      crashed := false;
    }
  }
}
