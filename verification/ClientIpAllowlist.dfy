/** The client address allowlist of a webhook route. */
module ClientIpAllowlist {
  import opened Text
  import opened IpNetworks
  import opened AddressLists

  predicate IsSeparator(c: char) {
    IsSpace(c) || c == ','
  }

  function Candidates(value: string): seq<string> {
    Tokens(Trim(value), IsSeparator)
  }

  /** The canonical text of one entry: a network when it has a slash, else an address. */
  function NormalizeEntry(candidate: string): Option<string> {
    if '/' in candidate then
      match ParseNetwork(candidate)
      case Some(n) => Some(PrintNetwork(n))
      case None => None
    else
      match ParseAddress(candidate)
      case Some(a) => Some(PrintAddress(a))
      case None => None
  }

  function Normalize(value: string): Result<string> {
    match Canonical(Candidates(value), NormalizeEntry)
    case Ok(entries) => Ok(Join(entries, '\n'))
    case Err => Err
  }

  function Lines(text: string): seq<string> {
    if text == "" then [] else Split(text, '\n')
  }

  /** The networks checked against a client: the list is normalized again, then every line
      is parsed. */
  function Networks(allowlist: string): Result<seq<Network>> {
    match Normalize(allowlist)
    case Ok(text) => RewriteAll(Lines(text), ParseNetwork)
    case Err => Err
  }

  predicate Holds(n: Network, c: Address) {
    n.prefix <= Width(n.version) && Contains(n, c)
  }

  predicate AnyContains(networks: seq<Network>, c: Address) {
    exists i :: 0 <= i < |networks| && Holds(networks[i], c)
  }

  function Client(host: string): Option<Address> {
    if Trim(host) == "" then None else ParseAddress(Trim(host))
  }

  function Allowed(host: string, allowlist: string): Result<bool> {
    match Client(host)
    case None => Ok(false)
    case Some(c) =>
      match Networks(allowlist)
      case Ok(networks) => Ok(AnyContains(networks, c))
      case Err => Err
  }

  // ----- the loops -----

  method NormalizeClientIpAllowlist(value: string) returns (r: Result<string>)
    ensures r == Normalize(value)
  {
    hide NormalizeEntry, Candidates, Join;
    var candidates := Candidates(value);
    var entries: seq<string>, seen: set<string> := [], {};
    for i := 0 to |candidates|
      invariant Canonical(candidates[..i], NormalizeEntry) == Ok(entries)
      invariant forall e :: e in seen <==> e in entries
    {
      CanonicalSnoc(candidates[..i], candidates[i], NormalizeEntry);
      PrefixStep(candidates, i);
      var normalized := NormalizeEntry(candidates[i]);
      if normalized.None? {
        CanonicalFails(candidates[..i + 1], candidates[i + 1..], NormalizeEntry);
        return Err;
      }
      if normalized.value !in seen {
        entries := entries + [normalized.value];
        seen := seen + {normalized.value};
      }
    }
    assert candidates[..|candidates|] == candidates;
    r := Ok(Join(entries, '\n'));
  }

  method ClientIpAllowlistNetworks(value: string) returns (r: Result<seq<Network>>)
    ensures r == Networks(value)
  {
    var text := NormalizeClientIpAllowlist(value);
    if text.Err? {
      return Err;
    }
    var lines := Lines(text.value);
    r := ParseEach(lines, ParseNetwork);
  }

  method ParseEach<T>(lines: seq<string>, parse: string -> Option<T>) returns (r: Result<seq<T>>)
    ensures r == RewriteAll(lines, parse)
  {
    var networks: seq<T> := [];
    for i := 0 to |lines|
      invariant RewriteAll(lines[..i], parse) == Ok(networks)
    {
      var n := parse(lines[i]);
      if n.None? {
        return Err;
      }
      RewriteStep(lines, i, parse);
      networks := networks + [n.value];
    }
    assert lines[..|lines|] == lines;
    r := Ok(networks);
  }

  // ----- one entry -----

  lemma AddressEntry(text: string)
    requires '/' !in text
    ensures ParseEntry(text) == match ParseAddress(text)
                                case Some(a) => Some(Entry(a, Width(a.version)))
                                case None => None
  {
    SplitParts(text, '/');
  }

  /** Rewriting one entry keeps its network, is stable, and fails exactly on malformed text. */
  lemma NormalizeEntryKeepsNetwork(candidate: string)
    ensures NormalizeEntry(candidate).Some? <==> ParseNetwork(candidate).Some?
    ensures var t := NormalizeEntry(candidate);
            t.Some? ==>
              && ParseNetwork(t.value) == ParseNetwork(candidate)
              && NormalizeEntry(t.value) == t
              && CanonicalText(t.value)
  {
    if '/' in candidate {
      ParsedNetworkValid(candidate);
      var n := ParseNetwork(candidate);
      if n.Some? {
        ParsePrintedNetwork(n.value);
      }
    } else {
      AddressEntry(candidate);
      ParsedAddressValid(candidate);
      var a := ParseAddress(candidate);
      if a.Some? {
        ParsePrintedAddress(a.value);
        AddressEntry(PrintAddress(a.value));
      }
    }
  }

  lemma NormalizedEntries(value: string)
    requires Normalize(value).Ok?
    ensures var entries := Canonical(Candidates(value), NormalizeEntry).value;
            && (forall e :: e in entries ==> CanonicalText(e) && NormalizeEntry(e) == Some(e) && ParseNetwork(e).Some?)
            && Lines(Normalize(value).value) == entries
            && Candidates(Normalize(value).value) == entries
  {
    hide NormalizeEntry, CanonicalText, Candidates, Lines, ParseNetwork, Join;
    var texts := RewriteAll(Candidates(value), NormalizeEntry).value;
    var entries := Dedupe(texts);
    forall e | e in entries
      ensures CanonicalText(e) && NormalizeEntry(e) == Some(e) && ParseNetwork(e).Some?
    {
      var i :| 0 <= i < |texts| && texts[i] == e;
      NormalizeEntryKeepsNetwork(Candidates(value)[i]);
      NormalizeEntryKeepsNetwork(e);
    }
    JoinedEntries(entries);
  }

  lemma JoinedEntries(entries: seq<string>)
    requires forall e :: e in entries ==> CanonicalText(e)
    ensures Lines(Join(entries, '\n')) == entries
    ensures Candidates(Join(entries, '\n')) == entries
  {
    forall e | e in entries
      ensures Free(e, '\n') && IsToken(e, IsSeparator) && Trimmed(e)
    {
      forall i | 0 <= i < |e| ensures !IsSeparator(e[i]) { assert e[i] in e; }
    }
    forall i | 0 <= i < |entries| ensures entries[i] != "" && Trimmed(entries[i]) {
      assert entries[i] in entries;
    }
    JoinTrimmed(entries, '\n');
    TrimFixes(Join(entries, '\n'));
    TokensJoin(entries, '\n', IsSeparator);
    if entries != [] {
      SplitJoin(entries, '\n');
    }
  }

  // ----- the whole list -----

  /** Normalizing a stored list again changes nothing. */
  lemma NormalizeIdempotent(value: string)
    requires Normalize(value).Ok?
    ensures Normalize(Normalize(value).value) == Normalize(value)
  {
    NormalizedEntries(value);
    forall x: string ensures NormalizeEntry(x).Some? ==> NormalizeEntry(NormalizeEntry(x).value) == NormalizeEntry(x) {
      NormalizeEntryKeepsNetwork(x);
    }
    CanonicalAgain(Candidates(value), NormalizeEntry);
  }

  /** Normalization is rejected exactly when some entry is malformed. */
  lemma NormalizeRejects(value: string)
    ensures Normalize(value).Err? <==> SomeEntry(Candidates(value), Malformed)
  {
    var candidates := Candidates(value);
    forall x: string ensures NormalizeEntry(x).None? <==> Malformed(x) {
      NormalizeEntryKeepsNetwork(x);
    }
    RewriteRejects(candidates, NormalizeEntry, Malformed);
  }

  lemma ClientIs(host: string)
    ensures Client(host) == ParseAddress(Trim(host))
  {
    if Trim(host) == "" {
      assert Split("", '.') == [""] && Split("", ':') == [""];
    }
  }

  /** The meaning of an allowlist: a client is admitted exactly when its host is an address, white space
      around it aside, that lies in the interval of some entry as the administrator wrote it. A malformed
      entry is an error for every such client; any other host is not admitted. */
  lemma AllowedIffCovered(host: string, value: string)
    ensures match ParseAddress(Trim(host))
            case None => Allowed(host, value) == Ok(false)
            case Some(c) =>
              if SomeEntry(Candidates(value), Malformed) then Allowed(host, value) == Err
              else Allowed(host, value) == Ok(Covered(Candidates(value), c))
  {
    ClientIs(host);
    if Client(host).Some? {
      AllowedAddress(host, value);
    }
  }

  lemma AllowedAddress(host: string, value: string)
    requires Client(host).Some?
    ensures Allowed(host, value).Err? <==> SomeEntry(Candidates(value), Malformed)
    ensures Allowed(host, value).Ok? ==>
              (Allowed(host, value).value <==> Covered(Candidates(value), Client(host).value))
  {
    NormalizeRejects(value);
    if Normalize(value).Ok? {
      var c := Client(host).value;
      ParsedAddressValid(Trim(host));
      NormalizedEntries(value);
      var entries := Canonical(Candidates(value), NormalizeEntry).value;
      NetworksOf(value, entries);
      CandidatesCover(value, entries, c);
      AnyIsCovered(entries, Networks(value).value, c);
    }
  }

  lemma NetworksOf(value: string, entries: seq<string>)
    requires Normalize(value).Ok? && Lines(Normalize(value).value) == entries
    requires forall e :: e in entries ==> ParseNetwork(e).Some?
    ensures Networks(value) == RewriteAll(entries, ParseNetwork)
    ensures Networks(value).Ok?
  {
    AllParse(entries, ParseNetwork);
  }

  lemma CandidatesCover(value: string, entries: seq<string>, c: Address)
    requires ValidAddress(c) && Canonical(Candidates(value), NormalizeEntry) == Ok(entries)
    ensures Covered(entries, c) <==> Covered(Candidates(value), c)
  {
    forall x: string | NormalizeEntry(x).Some?
      ensures EntryCovers(NormalizeEntry(x).value, c) == EntryCovers(x, c)
    {
      NormalizeEntryKeepsNetwork(x);
      EntryCoversIffContains(x, c);
      EntryCoversIffContains(NormalizeEntry(x).value, c);
    }
    CanonicalKeeps(Candidates(value), NormalizeEntry, e => EntryCovers(e, c));
  }

  lemma AnyIsCovered(entries: seq<string>, networks: seq<Network>, c: Address)
    requires ValidAddress(c) && RewriteAll(entries, ParseNetwork) == Ok(networks)
    ensures AnyContains(networks, c) <==> Covered(entries, c)
  {
    forall i | 0 <= i < |entries| ensures EntryCovers(entries[i], c) <==> Holds(networks[i], c) {
      EntryCoversIffContains(entries[i], c);
    }
    AnyMatches(entries, networks, e => EntryCovers(e, c), n => Holds(n, c));
  }

  /** Storing the normalized list instead of the written one changes no verdict. */
  lemma NormalizationKeepsVerdicts(host: string, value: string)
    requires Normalize(value).Ok?
    ensures Allowed(host, Normalize(value).value) == Allowed(host, value)
  {
    hide Normalize, Client, Lines, AnyContains;
    NormalizeIdempotent(value);
  }
}
