/** The user's display name and the greeting built from it. */
module Identity {
  import opened Wrappers
  import Text

  /** The name stored when the prompt gives nothing usable. */
  const Fallback: string := "Friend"

  /**
   * Whether page load must prompt: the stored `userName` is absent or the
   * empty string (both falsy).
   */
  predicate NeedsPrompt(stored: Option<string>) {
    stored.None? || stored.value == ""
  }

  /**
   * The name `askForName` keeps for a prompt answer (`None` when the prompt
   * is cancelled): the trimmed answer when it is not blank, otherwise "Friend".
   */
  function ResolveName(answer: Option<string>): (r: string)
    ensures r != ""
  {
    if answer.Some? && answer.value != "" && Text.Trim(answer.value) != "" then Text.Trim(answer.value)
    else Fallback
  }

  /**
   * A non-blank answer is kept trimmed; a cancelled, empty or blank one
   * gives "Friend". Either way the name has no whitespace at its ends.
   */
  lemma ResolveNameSpec(answer: Option<string>)
    ensures answer.Some? && !Text.AllWhitespace(answer.value) ==> ResolveName(answer) == Text.Trim(answer.value)
    ensures answer.None? || Text.AllWhitespace(answer.value) ==> ResolveName(answer) == Fallback
    ensures Text.Trim(ResolveName(answer)) == ResolveName(answer)
  {
    if answer.Some? {
      Text.TrimBlank(answer.value);
      Text.TrimIdempotent(answer.value);
    }
    Text.TrimOfTrimmed(Fallback);
  }

  /**
   * A resolved name is stable: once stored, the next page load uses it
   * without prompting, and entering it again at the prompt keeps it as is.
   */
  lemma ResolvedNameSticks(answer: Option<string>)
    ensures !NeedsPrompt(Some(ResolveName(answer)))
    ensures ResolveName(Some(ResolveName(answer))) == ResolveName(answer)
  {
    ResolveNameSpec(answer);
  }

  /** The greeting word for an hour of the day (`getHours()`, 0 to 23). */
  function GreetingWord(hour: int): (g: string)
  {
    if hour < 12 then "Good morning"
    else if hour < 18 then "Good afternoon"
    else "Good evening"
  }

  /**
   * Over one day the greeting starts as "Good morning" and changes from one
   * hour to the next exactly at 12 and at 18.
   */
  lemma GreetingChangesAtNoonAndSix(hour: int)
    requires 0 <= hour < 23
    ensures GreetingWord(0) == "Good morning" && GreetingWord(12) == "Good afternoon"
    ensures GreetingWord(23) == "Good evening"
    ensures GreetingWord(hour) != GreetingWord(hour + 1) <==> hour + 1 == 12 || hour + 1 == 18
  {
  }

  /** Before noon the morning greeting, until six the afternoon one, then the evening one. */
  lemma GreetingWordByHour(hour: int)
    ensures hour < 12 ==> GreetingWord(hour) == "Good morning"
    ensures 12 <= hour < 18 ==> GreetingWord(hour) == "Good afternoon"
    ensures 18 <= hour ==> GreetingWord(hour) == "Good evening"
  {
  }

  /** The text `updateTopSection` puts in the greeting element. */
  function GreetingLine(hour: int, name: string): (line: string)
    ensures |line| == |GreetingWord(hour)| + |name| + 3
    ensures line[..|GreetingWord(hour)|] == GreetingWord(hour)
    ensures line[|GreetingWord(hour)|..] == ", " + name + "!"
  {
    GreetingWord(hour) + ", " + name + "!"
  }

  /** At a given hour the greeting line determines the name it greets. */
  lemma GreetingLineDeterminesName(hour: int, a: string, b: string)
    requires GreetingLine(hour, a) == GreetingLine(hour, b)
    ensures a == b
  {
    var k := |GreetingWord(hour)| + 2;
    assert a == GreetingLine(hour, a)[k..|GreetingLine(hour, a)| - 1];
  }

  /** The greeting of the first-visit example: "Ava" in the morning. */
  lemma GreetingLineExample()
    ensures GreetingLine(9, "Ava") == "Good morning, Ava!"
  {
  }
}
