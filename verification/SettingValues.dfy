/** The settings an administrator can store, how a submitted text is normalized, and how a stored
    text becomes a value. */
module SettingValues {
  import opened Text
  import opened Integers
  import opened AddressLists
  import opened Urls

  datatype Key =
    | BotFrameworkEnabled
    | GraphLookupEnabled
    | GraphDeliveryEnabled
    | WebhookUrlRevealTtlHours
    | WebhookMaxPayloadBytes
    | WebhookAbuseBlockingEnabled
    | WebhookAbuseFailureLimit
    | WebhookAbuseWindowMinutes
    | LogRetentionDays
    | LogCleanupIntervalMinutes
    | EventDebugPreviewsEnabled
    | TrustXForwardedFor
    | SessionSecureCookie
    | CorsOrigins
    | AppPublicBaseUrl
    | FrontendBaseUrl
    | MsAppTenantId
    | MsAppClientId
    | MsAppClientSecret
    | Unknown(name: string)

  datatype Kind = IntKind | BoolKind | SecretKind | UrlKind | OriginsKind | TextKind

  predicate Known(key: Key) {
    !key.Unknown?
  }

  /** The four application settings; the other known ones override the environment. */
  predicate IsApplication(key: Key) {
    key.BotFrameworkEnabled? || key.GraphLookupEnabled? || key.GraphDeliveryEnabled? || key.WebhookUrlRevealTtlHours?
  }

  predicate Overridable(key: Key) {
    Known(key) && !IsApplication(key)
  }

  function KindOf(key: Key): Kind
    requires Known(key)
  {
    match key
    case WebhookUrlRevealTtlHours => IntKind
    case WebhookMaxPayloadBytes => IntKind
    case WebhookAbuseFailureLimit => IntKind
    case WebhookAbuseWindowMinutes => IntKind
    case LogRetentionDays => IntKind
    case LogCleanupIntervalMinutes => IntKind
    case CorsOrigins => OriginsKind
    case AppPublicBaseUrl => UrlKind
    case FrontendBaseUrl => UrlKind
    case MsAppTenantId => TextKind
    case MsAppClientId => TextKind
    case MsAppClientSecret => SecretKind
    case _ => BoolKind
  }

  /** The bounds checked for an integer setting. */
  predicate InRange(key: Key, n: int) {
    match key
    case WebhookMaxPayloadBytes => 1024 <= n
    case WebhookAbuseFailureLimit => 1 <= n
    case WebhookAbuseWindowMinutes => 1 <= n
    case WebhookUrlRevealTtlHours => 1 <= n <= 168
    case LogRetentionDays => 0 <= n
    case LogCleanupIntervalMinutes => 1 <= n
    case _ => true
  }

  predicate IsTrueWord(s: string) {
    s == "true" || s == "1" || s == "yes" || s == "on" || s == "enabled"
  }

  predicate IsFalseWord(s: string) {
    s == "false" || s == "0" || s == "no" || s == "off" || s == "disabled"
  }

  /** What is fixed for one process: the library limits and checks a text goes through, the cipher
      for secrets, and the settings read from the environment. */
  datatype Env = Env(
    maxDigits: nat,
    hostOk: string -> bool,
    encrypt: string -> Option<string>,
    decrypt: string -> Option<string>,
    base: map<Key, Value>)

  datatype Value = IntValue(n: int) | BoolValue(on: bool) | TextValue(text: string)

  function NormalizeInt(env: Env, key: Key, raw: string): Option<string> {
    match ParseInt(raw, env.maxDigits)
    case Some(n) => if InRange(key, n) then Some(PrintInt(n)) else None
    case None => None
  }

  function NormalizeBool(raw: string): Option<string> {
    var word := Lower(raw);
    if IsTrueWord(word) then Some("true") else if IsFalseWord(word) then Some("false") else None
  }

  /** `_validate_and_normalize`. */
  function Normalize(env: Env, key: Key, value: string): Option<string> {
    if !Known(key) then None
    else
      var raw := Trim(value);
      match KindOf(key)
      case SecretKind => if raw == "" then None else Some(raw)
      case IntKind => NormalizeInt(env, key, raw)
      case BoolKind => NormalizeBool(raw)
      case UrlKind => NormalizeUrl(env.hostOk, raw)
      case OriginsKind => NormalizeCors(env.hostOk, raw)
      case TextKind => Some(raw)
  }

  /** `_coerce_for_settings`; nothing when `int` raises. */
  function Coerce(env: Env, key: Key, stored: string): Option<Value>
    requires Known(key)
  {
    match KindOf(key)
    case IntKind =>
      (match ParseInt(stored, env.maxDigits)
       case Some(n) => Some(IntValue(n))
       case None => None)
    case BoolKind => Some(BoolValue(Lower(Trim(stored)) == "true"))
    case _ => Some(TextValue(stored))
  }

  /** Whether a value has the type the key's attribute has. */
  predicate HasType(key: Key, v: Value)
    requires Known(key)
  {
    match KindOf(key)
    case IntKind => v.IntValue?
    case BoolKind => v.BoolValue?
    case _ => v.TextValue?
  }

  lemma NormalizeUrlKinds(env: Env, key: Key, value: string)
    requires Known(key)
    ensures KindOf(key) == UrlKind ==> Normalize(env, key, value) == NormalizeUrl(env.hostOk, Trim(value))
    ensures KindOf(key) == OriginsKind ==> Normalize(env, key, value) == NormalizeCors(env.hostOk, Trim(value))
  {
    hide NormalizeUrl, NormalizeCors, NormalizeInt, NormalizeBool, Trim;
  }

  lemma UrlKeys()
    ensures KindOf(FrontendBaseUrl) == UrlKind && KindOf(CorsOrigins) == OriginsKind
  {
  }

  // ----- what is accepted -----

  /** The numbers an integer setting may have. */
  predicate Bounds(key: Key, n: int) {
    && (key.WebhookMaxPayloadBytes? ==> n >= 1024)
    && (key.WebhookAbuseFailureLimit? || key.WebhookAbuseWindowMinutes? || key.LogCleanupIntervalMinutes? ==> n >= 1)
    && (key.WebhookUrlRevealTtlHours? ==> n >= 1 && n <= 168)
    && (key.LogRetentionDays? ==> n >= 0)
  }

  /** A number within bounds, a word for yes or no, a secret that is not blank, an HTTP URL or nothing, a
      list of origins, or any text; white space around it aside. */
  predicate IsAcceptable(env: Env, key: Key, value: string)
    requires Known(key)
  {
    var raw := Trim(value);
    match KindOf(key)
    case IntKind => ParseInt(value, env.maxDigits).Some? && Bounds(key, ParseInt(value, env.maxDigits).value)
    case BoolKind =>
      Lower(raw) in {"true", "1", "yes", "on", "enabled", "false", "0", "no", "off", "disabled"}
    case SecretKind => raw != ""
    case UrlKind => raw != "" ==> HttpUrl(env.hostOk, raw).Some?
    case OriginsKind =>
      CommaParts(raw) != [] && forall i :: 0 <= i < |CommaParts(raw)| ==> OriginOf(env.hostOk, CommaParts(raw)[i]).Some?
    case TextKind => true
  }

  lemma SomeOrigin(entries: seq<string>, rewrite: string -> Option<string>)
    ensures (match Canonical(entries, rewrite) case Ok(origins) => origins != [] case Err => false)
       <==> entries != [] && forall i :: 0 <= i < |entries| ==> rewrite(entries[i]).Some?
  {
    var texts := RewriteAll(entries, rewrite);
    if texts.Ok? && entries != [] {
      assert texts.value[0] in texts.value;
      assert texts.value[0] in Dedupe(texts.value);
    }
  }

  lemma BoundsIff(key: Key, n: int)
    ensures Bounds(key, n) <==> InRange(key, n)
  {
  }

  /** What is stored for an accepted switch, number, secret, URL or text. */
  lemma NormalizedIs(env: Env, key: Key, value: string)
    requires Known(key) && Normalize(env, key, value).Some?
    ensures var n := Normalize(env, key, value).value;
      match KindOf(key)
      case IntKind => ParseInt(n, env.maxDigits).Some? && ParseInt(n, env.maxDigits) == ParseInt(value, env.maxDigits)
      case BoolKind =>
        n == if Lower(Trim(value)) in {"true", "1", "yes", "on", "enabled"} then "true" else "false"
      case UrlKind => n == StripSlashes(Trim(value))
      case OriginsKind => true
      case _ => n == Trim(value)
  {
    hide Trim, Lower, ParseInt, HttpUrl, NormalizeCors, InRange, StripSlashes, PrintInt;
    if KindOf(key) == IntKind {
      TrimIgnored(value, env.maxDigits);
      ReadPrintRead(Trim(value), env.maxDigits);
    }
    NothingStripped();
  }

  lemma NothingStripped()
    ensures StripSlashes("") == ""
  {
  }

  /** A text is accepted for a setting exactly then. */
  lemma AcceptedIff(env: Env, key: Key, value: string)
    requires Known(key)
    ensures Normalize(env, key, value).Some? <==> IsAcceptable(env, key, value)
  {
    hide Trim, Lower, ParseInt, HttpUrl, OriginOf, Canonical, CommaParts, Bounds, InRange, StripSlashes, PrintInt;
    TrimIgnored(value, env.maxDigits);
    if ParseInt(value, env.maxDigits).Some? {
      BoundsIff(key, ParseInt(value, env.maxDigits).value);
    }
    SomeOrigin(CommaParts(Trim(value)), c => OriginOf(env.hostOk, c));
  }

  // ----- normalizing twice -----

  /** What the second pass needs of a written URL or list: no blank before the trailing slashes of a
      URL, none at the end of the location an entry names. */
  predicate SecondPassSafe(key: Key, value: string)
    requires Known(key)
  {
    match KindOf(key)
    case UrlKind => NoBlankBeforeSlashes(Trim(value))
    case OriginsKind => forall c :: c in CommaParts(Trim(value)) ==> EndsSolid(c)
    case _ => true
  }

  lemma LowerWords()
    ensures Lower("true") == "true" && Lower("false") == "false"
  {
  }

  lemma TrimWord(s: string)
    requires s == "true" || s == "false"
    ensures Trim(s) == s
  {
    hide Trim, Blank;
    assert Trimmed(s) by {
      assert s[0] == 't' || s[0] == 'f';
      assert s[|s| - 1] == 'e';
    }
    TrimFixes(s);
  }

  lemma BoolTwice(raw: string)
    requires NormalizeBool(raw).Some?
    ensures var n := NormalizeBool(raw).value;
      Trim(n) == n && NormalizeBool(n) == Some(n)
        && n == if IsTrueWord(Lower(raw)) then "true" else "false"
  {
    hide Trim, Lower;
    TrimWord(NormalizeBool(raw).value);
    LowerWords();
  }

  lemma IntTwice(env: Env, key: Key, raw: string)
    requires NormalizeInt(env, key, raw).Some?
    ensures var n := NormalizeInt(env, key, raw).value;
      Trim(n) == n && NormalizeInt(env, key, n) == Some(n)
  {
    ReadPrintRead(raw, env.maxDigits);
  }

  lemma TrimAgain(value: string)
    ensures Trim(Trim(value)) == Trim(value)
  {
    TrimFixes(value);
    TrimFixes(Trim(value));
  }

  /** Normalization is idempotent on a submitted value exactly when it leaves no blank at the end of
      a URL or of a location in a list; for every other kind it always is. */
  lemma NormalizeTwiceIff(env: Env, key: Key, value: string)
    requires Known(key) && Normalize(env, key, value).Some?
    ensures var n := Normalize(env, key, value).value;
      && (Normalize(env, key, n) == Some(n) <==> SecondPassSafe(key, value))
  {
    var raw := Trim(value);
    match KindOf(key)
    case SecretKind => TrimAgain(value);
    case TextKind => TrimAgain(value);
    case IntKind => IntTwice(env, key, raw);
    case BoolKind => BoolTwice(raw);
    case UrlKind =>
      UrlTwiceIff(env.hostOk, value);
      if raw == "" {
        TrimAgain(value);
      }
    case OriginsKind => CorsTwiceIff(env.hostOk, value);
  }

  lemma IntCoerces(env: Env, key: Key, value: string)
    requires NormalizeInt(env, key, Trim(value)).Some?
    ensures ParseInt(value, env.maxDigits).Some?
    ensures ParseInt(NormalizeInt(env, key, Trim(value)).value, env.maxDigits) == ParseInt(value, env.maxDigits)
    ensures InRange(key, ParseInt(value, env.maxDigits).value)
  {
    TrimIgnored(value, env.maxDigits);
    ReadPrintRead(Trim(value), env.maxDigits);
  }

  lemma BoolCoerces(value: string)
    requires NormalizeBool(Trim(value)).Some?
    ensures Lower(Trim(NormalizeBool(Trim(value)).value)) == "true" <==> IsTrueWord(Lower(Trim(value)))
  {
    BoolTwice(Trim(value));
    LowerWords();
  }

  /** An accepted integer is stored as text that is read back as that integer, in range; an
      accepted switch as the word for its value. */
  lemma NormalizedCoerces(env: Env, key: Key, value: string)
    requires Known(key) && Normalize(env, key, value).Some?
    ensures var n := Normalize(env, key, value).value;
      && Coerce(env, key, n).Some?
      && (KindOf(key) == IntKind ==>
            ParseInt(value, env.maxDigits).Some?
            && Coerce(env, key, n) == Some(IntValue(ParseInt(value, env.maxDigits).value))
            && InRange(key, ParseInt(value, env.maxDigits).value))
      && (KindOf(key) == BoolKind ==>
            Coerce(env, key, n) == Some(BoolValue(IsTrueWord(Lower(Trim(value))))))
  {
    if KindOf(key) == IntKind {
      IntCoerces(env, key, value);
    } else if KindOf(key) == BoolKind {
      BoolCoerces(value);
    }
  }
}
