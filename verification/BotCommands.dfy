/** Reading a bot command, and the permission it requires. */
module BotCommands {
  import opened Text
  import opened Activities
  import opened References
  import opened BotAccess

  datatype Command = Register | Webhook | Disable | Enable | Delete | Info | Allowlist | Help

  datatype Parsed = Parsed(command: Command, argument: string)

  /** KNOWN_COMMANDS. */
  function CommandOf(word: string): Option<Command> {
    if word == "register" then Some(Register)
    else if word == "webhook" then Some(Webhook)
    else if word == "disable" then Some(Disable)
    else if word == "enable" then Some(Enable)
    else if word == "delete" then Some(Delete)
    else if word == "info" then Some(Info)
    else if word == "allowlist" then Some(Allowlist)
    else if word == "help" then Some(Help)
    else None
  }

  /** SAFE_SUBMIT_COMMANDS. */
  predicate SafeToSubmit(c: Command) {
    c in {Webhook, Disable, Enable, Info, Help}
  }

  predicate IsWordChar(c: char) {
    IsLetter(c) || IsDigit(c) || c == '_' || c == '-'
  }

  /** White space collapsed: `" ".join(text.strip().split())`. */
  function Squash(text: string): string {
    Join(Tokens(Trim(text), IsSpace), ' ')
  }

  /** `_parse_command` on text whose mentions are removed and whose HTML entities are decoded. */
  function ParseCleaned(text: string): Option<Parsed> {
    var cleaned := Trim(text);
    var word := TakeWhile(cleaned, IsWordChar);
    var rest := cleaned[|word|..];
    if word == "" || !IsLetter(word[0]) || (rest != "" && !IsSpace(rest[0])) then None
    else
      match CommandOf(Lower(word))
      case Some(command) => Some(Parsed(command, Squash(rest)))
      case None => None
  }

  /** The string fields a card submit carries; missing or non-string fields read as "". */
  datatype Submit = Submit(command: string, routeNameSnake: string, routeNameCamel: string, route: string,
      argument: string)

  function ParseSubmit(unmark: string -> string, value: Submit): Option<Parsed> {
    var command := Trim(value.command);
    if command == "" then None
    else
      var parsed := ParseCleaned(unmark(command));
      var chosen := if parsed.Some? then Some(parsed.value.command) else CommandOf(Lower(command));
      var embedded := if parsed.Some? then parsed.value.argument else "";
      if chosen.None? || !SafeToSubmit(chosen.value) then None
      else
        var routeName := Or(Or(Or(Trim(value.routeNameSnake), Trim(value.routeNameCamel)), Trim(value.route)),
                            Trim(value.argument));
        Some(Parsed(chosen.value, Squash(Or(routeName, embedded))))
  }

  /** `_parse_activity_command`: a submit value first, then the message text. `unmark` removes
      mentions and decodes HTML entities. */
  function ParseActivity(unmark: string -> string, value: Submit, text: string): Option<Parsed> {
    var parsed := ParseSubmit(unmark, value);
    if parsed.Some? then parsed else ParseCleaned(unmark(Trim(text)))
  }

  const SHOW := "show"
  const PUBLIC := "public"
  const RESTRICTED := "restricted"

  /** The mode alone, or the mode and a space before more text. */
  predicate HasMode(lowered: string, mode: string) {
    StartsWith(lowered, mode) && (|lowered| == |mode| || lowered[|mode|] == ' ')
  }

  /** `_allowlist_argument_is_write`. */
  predicate IsWrite(argument: string) {
    var lowered := Lower(Trim(argument));
    HasMode(lowered, PUBLIC) || HasMode(lowered, RESTRICTED)
  }

  /** `_required_bot_permission`. */
  function Required(p: Parsed, scope: string): Option<Permission> {
    match p.command
    case Help => None
    case Info => Some(ViewRoutes)
    case Webhook => Some(RevealWebhookUrls)
    case Enable => Some(ManageRouteStatus)
    case Disable => Some(ManageRouteStatus)
    case Delete => Some(DeleteRoutes)
    case Register => Some(if scope in {"team", "channel"} then CreateChannelRoutes else CreatePrivateChatRoutes)
    case Allowlist => Some(if IsWrite(p.argument) then ManageAllowlist else ViewRoutes)
  }

  /** What the allowlist command does with its argument. */
  datatype AllowlistAction = Show(shown: string) | SetPublic(routeName: string) | SetRestricted(routeName: string,
      entries: string)

  /** The dispatch of `_allowlist_command`. */
  function AllowlistActionOf(argument: string): AllowlistAction {
    var lowered := Lower(argument);
    if argument == "" || lowered == SHOW then Show("")
    else if HasMode(lowered, SHOW) then Show(Trim(argument[|SHOW| + 1..]))
    else if HasMode(lowered, PUBLIC) then SetPublic(Trim(argument[|PUBLIC|..]))
    else if HasMode(lowered, RESTRICTED) then
      var (routeName, entries) := SplitRestricted(Trim(argument[|RESTRICTED|..]));
      SetRestricted(routeName, entries)
    else Show(argument)
  }

  /** `_parse_restricted_allowlist_argument`. */
  function SplitRestricted(argument: string): (string, string) {
    var head := Token(argument, c => c == ':');
    if head == argument then ("", argument) else (Trim(head), Trim(argument[|head| + 1..]))
  }

  // ----- properties -----

  lemma TokensTrimmed(s: string)
    ensures forall i :: 0 <= i < |Tokens(s, IsSpace)| ==>
              Tokens(s, IsSpace)[i] != "" && Trimmed(Tokens(s, IsSpace)[i])
  {
    TokensAreTokens(s, IsSpace);
    forall i | 0 <= i < |Tokens(s, IsSpace)|
      ensures Tokens(s, IsSpace)[i] != "" && Trimmed(Tokens(s, IsSpace)[i])
    {
      assert Tokens(s, IsSpace)[i] in Tokens(s, IsSpace);
    }
  }

  lemma SquashTrimmed(s: string)
    ensures Trimmed(Squash(s))
  {
    TokensTrimmed(Trim(s));
    JoinTrimmed(Tokens(Trim(s), IsSpace), ' ');
  }

  /** Every parsed argument is trimmed. */
  lemma ArgumentTrimmed(unmark: string -> string, value: Submit, text: string)
    ensures ParseActivity(unmark, value, text).Some? ==> Trimmed(ParseActivity(unmark, value, text).value.argument)
  {
    SubmitTrimmed(unmark, value);
    CleanedTrimmed(unmark(Trim(text)));
  }

  lemma SubmitTrimmed(unmark: string -> string, value: Submit)
    ensures ParseSubmit(unmark, value).Some? ==> Trimmed(ParseSubmit(unmark, value).value.argument)
  {
    var embedded := ParseCleaned(unmark(Trim(value.command)));
    var routeName := Or(Or(Or(Trim(value.routeNameSnake), Trim(value.routeNameCamel)), Trim(value.route)),
                        Trim(value.argument));
    SquashTrimmed(Or(routeName, if embedded.Some? then embedded.value.argument else ""));
  }

  lemma CleanedTrimmed(text: string)
    ensures ParseCleaned(text).Some? ==> Trimmed(ParseCleaned(text).value.argument)
  {
    var cleaned := Trim(text);
    SquashTrimmed(cleaned[|TakeWhile(cleaned, IsWordChar)|..]);
  }

  /** A submitted card never yields register, delete or allowlist. */
  lemma SubmitIsSafe(unmark: string -> string, value: Submit)
    ensures ParseSubmit(unmark, value).Some? ==>
        ParseSubmit(unmark, value).value.command !in {Register, Delete, Allowlist}
  {
  }

  /** Whatever reaches the setter was classified as a write, for every argument. */
  lemma SetterIsWrite(argument: string)
    ensures !AllowlistActionOf(argument).Show? ==> IsWrite(argument)
  {
    if HasMode(Lower(argument), PUBLIC) {
      ModeTrimmed(argument, PUBLIC);
    } else if HasMode(Lower(argument), RESTRICTED) {
      ModeTrimmed(argument, RESTRICTED);
    }
  }

  /** On parsed arguments the permission check and the dispatcher classify alike. */
  lemma WriteIffSetter(argument: string)
    requires Trimmed(argument)
    ensures !AllowlistActionOf(argument).Show? <==> IsWrite(argument)
  {
    hide Trim, Lower, SplitRestricted;
    TrimFixes(argument);
    OneMode(Lower(argument));
    SetterIsWrite(argument);
  }

  lemma OneMode(lowered: string)
    ensures HasMode(lowered, SHOW) ==> !HasMode(lowered, PUBLIC) && !HasMode(lowered, RESTRICTED)
  {
    if HasMode(lowered, SHOW) {
      assert lowered[0] == SHOW[0] == 's';
      assert PUBLIC[0] == 'p' && RESTRICTED[0] == 'r';
    }
  }

  lemma SameSpaces(s: string, i: nat)
    requires i < |s|
    ensures IsSpace(Lower(s)[i]) <==> IsSpace(s[i])
  {
    assert Lower(s)[i] == LowerChar(s[i]);
  }

  lemma ModeTrimmed(argument: string, mode: string)
    requires HasMode(Lower(argument), mode)
    requires mode != "" && !IsSpace(mode[0]) && !IsSpace(mode[|mode| - 1])
    ensures HasMode(Lower(Trim(argument)), mode)
  {
    hide Trim, Lower, IsSpace;
    var lowered, n := Lower(argument), |mode|;
    assert lowered[..n][0] == mode[0] && lowered[..n][n - 1] == mode[n - 1];
    SameSpaces(argument, 0);
    SameSpaces(argument, n - 1);
    TrimKeeps(argument, n - 1);
    assert lowered[..|Trim(argument)|][..n] == lowered[..n];
  }
}
