/** The wire conventions shared by the server, the client and the bot: the
    fixed literals, `String.indexOf`, and the framing of a chat message as
    "name: body", from which the receiver recovers the sender. */
module Protocol {

  datatype Option<T> = None | Some(value: T)

  /** Sent by the server when a name is accepted (ConnectionThread.java:22); the
      client compares replies against the same text (ChatClient.java:164). */
  const Confirmation := "Thank you for joining the server...enjoy!"
  /** Sent by the server when a name is already registered. */
  const NameTaken := "Please try again...this username is already taken"
  /** Ends a session: in the relay loop and in both input duties. */
  const DisconnectCommand := "/disconnect"
  /** Starts the external game; never sent to the server. */
  const PlayCommand := "/play DOD"
  /** The bot's fixed name, reserved for it. */
  const BotName := "Quacky"
  /** The server's reserved name. */
  const ServerName := "Server"
  /** What the server operator types to shut the server down. */
  const ExitCommand := "EXIT"

  /** `String.indexOf(char)`: the first position of `c`, or -1. */
  function IndexOf(s: string, c: char): (i: int)
    ensures -1 <= i < |s|
    ensures i == -1 <==> c !in s
    ensures 0 <= i ==> s[i] == c && c !in s[..i]
  {
    if |s| == 0 then -1
    else if s[0] == c then 0
    else
      var j := IndexOf(s[1..], c);
      if j == -1 then -1
      else
        assert s[..j + 1] == [s[0]] + s[1..][..j];
        j + 1
  }

  /** How a client writes a chat line: its name, a colon, a space, the text.
      `FormatRoundTrip` states how a receiver parses it back. */
  function Format(name: string, body: string): string
  {
    name + ": " + body
  }

  /** The sender of a received line, `line.substring(0, line.indexOf(':'))`;
      `None` when the line has no colon, where the Java call throws
      (`substring(0, -1)`). The sender is the longest colon-free prefix that is
      followed by a colon. */
  function Sender(line: string): (r: Option<string>)
    ensures r.None? <==> ':' !in line
    ensures r.Some? ==> |r.value| < |line| && line[..|r.value|] == r.value
                        && line[|r.value|] == ':' && ':' !in r.value
  {
    var i := IndexOf(line, ':');
    if i < 0 then None else Some(line[..i])
  }

  /** The text the bot tests against its trigger,
      `line.substring(line.indexOf(":") + 2)`; `None` where that call throws
      because the start lies past the end of the line. */
  function Body(line: string): (r: Option<string>)
    ensures ':' in line ==>
              (r.Some? <==> IndexOf(line, ':') + 2 <= |line|)
    ensures r.Some? ==> |r.value| == |line| - IndexOf(line, ':') - 2
    ensures r.Some? ==> |r.value| < |line| && line[|line| - |r.value|..] == r.value
  {
    var i := IndexOf(line, ':');
    if i + 2 <= |line| then Some(line[i + 2..]) else None
  }

  /** The condition `ChatClient.setUserName` loops on, negated: non-empty, no
      colon, and neither of the two reserved names. */
  predicate ValidUserName(name: string)
  {
    name != "" && ':' !in name && name != BotName && name != ServerName
  }

  /** If there is no colon before position `k` and one at `k`, `indexOf` finds
      exactly `k`. */
  lemma IndexOfAt(s: string, c: char, k: nat)
    requires k < |s| && s[k] == c && c !in s[..k]
    ensures IndexOf(s, c) == k
  {
    assert s[k] in s;
  }

  /** Round trip of the message framing: a line written by a colon-free name
      parses back to that name, and its trigger text is exactly the body. */
  lemma FormatRoundTrip(name: string, body: string)
    requires ':' !in name
    ensures Sender(Format(name, body)) == Some(name)
    ensures Body(Format(name, body)) == Some(body)
  {
    var line := Format(name, body);
    assert line[..|name|] == name;
    assert line[|name|] == ':';
    IndexOfAt(line, ':', |name|);
    assert line[|name| + 2..] == body;
  }

  /** Every name the client accepts at its prompt survives the round trip. */
  lemma ValidNameRoundTrip(name: string, body: string)
    requires ValidUserName(name)
    ensures Sender(Format(name, body)) == Some(name)
  {
    FormatRoundTrip(name, body);
  }

  /** ASCII lower-casing of one character. */
  function LowerChar(c: char): (d: char)
    ensures 'A' <= c <= 'Z' ==> 'a' <= d <= 'z' && d as int - c as int == 32
    ensures !('A' <= c <= 'Z') ==> d == c
  {
    if 'A' <= c <= 'Z' then (c as int + 32) as char else c
  }

  /** `String.toLowerCase`, restricted to ASCII letters. */
  function ToLower(s: string): (r: string)
    ensures |r| == |s|
    ensures forall i :: 0 <= i < |s| ==> r[i] == LowerChar(s[i])
  {
    if |s| == 0 then "" else [LowerChar(s[0])] + ToLower(s[1..])
  }
}
