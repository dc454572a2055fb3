/** The bot's message rules: its trigger test and its canned reply. The bot's
    duties themselves are methods of `Client.ChatClient` (persona `Bot`). */
module Bot {
  import opened Protocol

  /** The body text that makes the bot answer, compared after lower-casing. */
  const TriggerPhrase := "hey quacky"

  /** What the bot sends when triggered: `name + ": Quack Quack!!"`. */
  function Reply(name: string): (line: string)
    ensures ':' !in name ==> Sender(line) == Some(name) && Body(line) == Some("Quack Quack!!")
  {
    var line := Format(name, "Quack Quack!!");
    assert ':' !in name ==> Sender(line) == Some(name) && Body(line) == Some("Quack Quack!!") by {
      if ':' !in name { FormatRoundTrip(name, "Quack Quack!!"); }
    }
    line
  }

  /** The trigger test of `ChatBot.createPrintingThread`: the text from two
      characters after the first colon, lower-cased, equals the phrase. The
      test is reached only on a line whose sender parsed, so a line without a
      colon never triggers, and neither does one whose text start lies past
      its end (the Java calls throw there instead). */
  predicate Triggers(line: string)
  {
    Sender(line).Some? && Body(line).Some? && ToLower(Body(line).value) == TriggerPhrase
  }

  /** On a formatted message the trigger looks at the whole body and nothing
      else, in both directions. */
  lemma TriggerOnFormat(name: string, body: string)
    requires ':' !in name
    ensures Triggers(Format(name, body)) <==> ToLower(body) == TriggerPhrase
  {
    FormatRoundTrip(name, body);
  }

  /** Exact match: a triggering body has exactly the phrase's length and
      agrees with it letter by letter up to case. */
  lemma TriggerIsExact(name: string, body: string)
    requires ':' !in name && Triggers(Format(name, body))
    ensures |body| == |TriggerPhrase|
    ensures forall i :: 0 <= i < |body| ==> LowerChar(body[i]) == TriggerPhrase[i]
  {
    TriggerOnFormat(name, body);
  }

  /** Case does not matter: a body that agrees with the phrase letter by
      letter up to case triggers, whatever its capitals. With
      `TriggerIsExact` this is an if-and-only-if. */
  lemma TriggerIgnoresCase(name: string, body: string)
    requires ':' !in name
    requires |body| == |TriggerPhrase|
    requires forall i :: 0 <= i < |body| ==> LowerChar(body[i]) == TriggerPhrase[i]
    ensures Triggers(Format(name, body))
  {
    TriggerOnFormat(name, body);
    assert ToLower(body) == TriggerPhrase;
  }

  /** In particular the phrase in capitals triggers. */
  lemma UpperCaseTriggers()
    ensures Triggers(Format("Bob", "HEY QUACKY"))
  {
    var body := "HEY QUACKY";
    forall i | 0 <= i < |body| ensures LowerChar(body[i]) == TriggerPhrase[i] {
      assert body[i] == ['H', 'E', 'Y', ' ', 'Q', 'U', 'A', 'C', 'K', 'Y'][i];
    }
    TriggerIgnoresCase("Bob", body);
  }

  /** A trailing character or a leading word stops the match. */
  lemma NearMissesDoNotTrigger()
    ensures !Triggers(Format("Bob", "hey quacky!"))
    ensures !Triggers(Format("Bob", "say hey quacky"))
  {
    var extra, prefixed := "hey quacky!", "say hey quacky";
    assert |extra| == 11 && |prefixed| == 14;
    TriggerOnFormat("Bob", extra);
    TriggerOnFormat("Bob", prefixed);
  }

  /** The bot's own reply never triggers another reply: its body lower-cases to
      "quack quack!!", which is longer than the phrase. */
  lemma ReplyDoesNotRetrigger(name: string)
    requires ':' !in name
    ensures !Triggers(Reply(name))
  {
    TriggerOnFormat(name, "Quack Quack!!");
  }
}
