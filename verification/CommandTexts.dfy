/** Which written texts are which commands: a partner for the parser of messages, submitted cards and
    allowlist arguments. */
module CommandTexts {
  import opened Text
  import opened BotCommands

  /** The word of each command. */
  function WordOf(c: Command): string {
    match c
    case Register => "register"
    case Webhook => "webhook"
    case Disable => "disable"
    case Enable => "enable"
    case Delete => "delete"
    case Info => "info"
    case Allowlist => "allowlist"
    case Help => "help"
  }

  lemma WordIff(word: string, c: Command)
    ensures CommandOf(word) == Some(c) <==> word == WordOf(c)
  {
    match c
    case Register =>
    case Webhook =>
    case Disable =>
    case Enable =>
    case Delete =>
    case Info =>
    case Allowlist =>
    case Help =>
  }

  predicate IsLow(s: string) {
    s != "" && forall i :: 0 <= i < |s| ==> 'a' <= s[i] <= 'z'
  }

  lemma WordsAreLow(c: Command)
    ensures IsLow(WordOf(c))
  {
  }

  /** The command word in any case, then nothing or white space and the argument. */
  predicate Writes(text: string, word: string, rest: string, p: Parsed) {
    && text == word + rest && Lower(word) == WordOf(p.command)
    && (rest != "" ==> IsSpace(rest[0])) && p.argument == Squash(rest)
  }

  lemma LettersOf(word: string, lowered: string)
    requires IsLow(lowered) && |lowered| == |word|
    requires forall i :: 0 <= i < |word| ==> lowered[i] == LowerChar(word[i])
    ensures word != "" && forall i :: 0 <= i < |word| ==> IsLetter(word[i])
  {
    hide LowerChar, IsLetter;
    forall i | 0 <= i < |word| ensures IsLetter(word[i]) {
      assert lowered[i] == LowerChar(word[i]);
      LetterOf(word[i]);
    }
  }

  lemma LetterOf(c: char)
    ensures 'a' <= LowerChar(c) <= 'z' ==> IsLetter(c)
  {
  }

  lemma {:induction false} TakesWord(word: string, rest: string)
    requires forall i :: 0 <= i < |word| ==> IsLetter(word[i])
    requires rest != "" ==> IsSpace(rest[0])
    ensures TakeWhile(word + rest, IsWordChar) == word
  {
    if word == "" {
      assert word + rest == rest;
    } else {
      TakesWord(word[1..], rest);
      ConsAppend(word, rest);
    }
  }

  lemma WrittenParses(text: string, word: string, rest: string, p: Parsed)
    requires Writes(Trim(text), word, rest, p)
    ensures ParseCleaned(text) == Some(p)
  {
    hide Trim, Squash, Lower, IsSpace, CommandOf;
    WordsAreLow(p.command);
    LettersOf(word, Lower(word));
    TakesWord(word, rest);
    assert (word + rest)[|word|..] == rest;
    WordIff(Lower(word), p.command);
  }

  lemma ParsedWritten(text: string, p: Parsed) returns (word: string, rest: string)
    requires ParseCleaned(text) == Some(p)
    ensures Writes(Trim(text), word, rest, p)
  {
    hide Trim, Squash, Lower, IsSpace, CommandOf, TakeWhile, IsWordChar;
    var cleaned := Trim(text);
    word := TakeWhile(cleaned, IsWordChar);
    rest := cleaned[|word|..];
    WordIff(Lower(word), p.command);
    TakenFirst(cleaned, word);
  }

  /** A message text is a command exactly when it is written so. */
  lemma ParsesIff(text: string, p: Parsed)
    ensures ParseCleaned(text) == Some(p) <==> exists word, rest :: Writes(Trim(text), word, rest, p)
  {
    hide ParseCleaned, Writes, Trim;
    if ParseCleaned(text) == Some(p) {
      var word, rest := ParsedWritten(text, p);
    }
    if word, rest :| Writes(Trim(text), word, rest, p) {
      WrittenParses(text, word, rest, p);
    }
  }

  lemma TakenFirst(s: string, word: string)
    requires word == TakeWhile(s, IsWordChar)
    ensures |word| <= |s| && s == word + s[|word|..]
  {
  }

  /** The route name a submitted card gives: the first field that is not blank, in this order. */
  function Named(value: Submit): string {
    Or(Trim(value.routeNameSnake), Or(Trim(value.routeNameCamel), Or(Trim(value.route), Trim(value.argument))))
  }

  /** A submitted card whose command field is the word of a command that may be submitted gives that
      command, with the name from its fields. */
  lemma SubmitGives(unmark: string -> string, value: Submit, word: string, c: Command)
    requires Trim(value.command) == word && unmark(word) == word && Lower(word) == WordOf(c)
    requires c in {Webhook, Disable, Enable, Info, Help}
    ensures ParseSubmit(unmark, value) == Some(Parsed(c, Squash(Named(value))))
  {
    hide Squash, Lower, Trim, ParseCleaned, CommandOf;
    WordParses(value.command, word, c);
    assert Or(Named(value), "") == Named(value);
  }

  lemma WordParses(command: string, word: string, c: Command)
    requires Trim(command) == word && Lower(word) == WordOf(c)
    ensures word != "" && ParseCleaned(word) == Some(Parsed(c, ""))
  {
    hide Squash, Lower, Trim, ParseCleaned, CommandOf, Trimmed, Blank;
    WordsAreLow(c);
    LettersOf(word, Lower(word));
    NothingSquashed();
    assert word + "" == word;
    TrimFixes(command);
    TrimFixes(word);
    WrittenParses(word, word, "", Parsed(c, ""));
  }

  lemma NothingSquashed()
    ensures Squash("") == ""
  {
  }

  // ----- the allowlist argument -----

  lemma ModeWritten(word: string, rest: string, mode: string)
    requires Lower(word) == mode && (rest != "" ==> rest[0] == ' ')
    ensures HasMode(Lower(word + rest), mode)
    ensures mode == PUBLIC || mode == RESTRICTED ==> !HasMode(Lower(word + rest), SHOW) && Lower(word + rest) != SHOW
    ensures mode == RESTRICTED ==> !HasMode(Lower(word + rest), PUBLIC)
    ensures (word + rest)[|mode|..] == rest
  {
    var lowered := Lower(word + rest);
    assert forall i :: 0 <= i < |word| ==> lowered[i] == LowerChar(word[i]) == Lower(word)[i];
    assert lowered[..|mode|] == mode;
    if rest != "" {
      assert lowered[|mode|] == LowerChar(' ');
    }
    assert mode != "" ==> lowered[0] == mode[0];
    assert SHOW[0] == 's' && PUBLIC[0] == 'p' && RESTRICTED[0] == 'r';
  }

  /** "public", and the route name after it, opens the route. */
  lemma PublicWritten(word: string, rest: string)
    requires Lower(word) == PUBLIC && (rest != "" ==> rest[0] == ' ')
    ensures AllowlistActionOf(word + rest) == SetPublic(Trim(rest))
  {
    hide Trim, Lower, HasMode;
    ModeWritten(word, rest, PUBLIC);
  }

  /** "restricted", a route name before the first colon and the entries after it; without a colon
      everything is entries. */
  lemma RestrictedWritten(word: string, name: string, entries: string)
    requires Lower(word) == RESTRICTED && ':' !in name && Trimmed(name + ":" + entries)
    ensures AllowlistActionOf(word + (" " + (name + ":" + entries))) == SetRestricted(Trim(name), Trim(entries))
  {
    hide Trim, Lower, HasMode, SplitRestricted;
    var rest := name + ":" + entries;
    ModeWritten(word, " " + rest, RESTRICTED);
    SpaceTrimmed(rest);
    SplitsAtColon(name, entries);
  }

  lemma RestrictedWithoutName(word: string, entries: string)
    requires Lower(word) == RESTRICTED && ':' !in entries && Trimmed(entries)
    ensures AllowlistActionOf(word + (" " + entries)) == SetRestricted("", entries)
  {
    hide Trim, Lower, HasMode, SplitRestricted;
    ModeWritten(word, " " + entries, RESTRICTED);
    SpaceTrimmed(entries);
    NoColon(entries);
  }

  lemma SpaceTrimmed(s: string)
    requires Trimmed(s)
    ensures Trim(" " + s) == s
  {
    hide DropEndWhile, Trimmed;
    assert (" " + s)[1..] == s;
    assert DropWhile(" " + s, IsSpace) == DropWhile(s, IsSpace);
    TrimFixes(s);
  }

  lemma SplitsAtColon(name: string, entries: string)
    requires ':' !in name
    ensures SplitRestricted(name + ":" + entries) == (Trim(name), Trim(entries))
  {
    hide Trim;
    var s := name + ":" + entries;
    Concat3(name, ":", entries);
    TokenStops(name, ":" + entries, c => c == ':');
    assert s[|name| + 1..] == entries;
    assert |s| > |name|;
  }

  lemma NoColon(s: string)
    requires ':' !in s
    ensures SplitRestricted(s) == ("", s)
  {
    TokenStops(s, "", c => c == ':');
    assert s + "" == s;
  }
}
