/** The trusted proxy chain: the compose subnet and the configured proxies as one list. */
module TrustedProxies {
  import opened Text
  import opened IpNetworks
  import opened AddressLists

  function NormalizeEntry(candidate: string): Option<string> {
    match ParseNetwork(candidate)
    case Some(n) => Some(PrintNetwork(n))
    case None => None
  }

  function Normalize(value: string): Result<string> {
    match Canonical(CommaParts(value), NormalizeEntry)
    case Ok(entries) => Ok(Join(entries, ','))
    case Err => Err
  }

  /** `",".join` over the arguments that are not blank. */
  function Combine(subnet: string, proxies: string): string {
    Join((if Trim(subnet) != "" then [subnet] else []) + (if Trim(proxies) != "" then [proxies] else []), ',')
  }

  method NormalizeProxyIpList(value: string) returns (r: Result<string>)
    ensures r == Normalize(value)
  {
    if value == "" {
      BlankList("");
      return Ok("");
    }
    var parts := Split(value, ',');
    r := RewriteParts(parts, Trim, NormalizeEntry);
  }

  method RewriteParts(parts: seq<string>, clean: string -> string, rewrite: string -> Option<string>)
    returns (r: Result<string>)
    ensures r == match Canonical(NonEmpty(parts, clean), rewrite)
                 case Ok(entries) => Ok(Join(entries, ','))
                 case Err => Err
  {
    var networks: seq<string>, seen: set<string> := [], {};
    ghost var done: seq<string> := [];
    for i := 0 to |parts|
      invariant done == NonEmpty(parts[..i], clean) && Canonical(done, rewrite) == Ok(networks)
      invariant forall n :: n in seen <==> n in networks
    {
      var candidate := clean(parts[i]);
      NonEmptyStep(parts, i, clean);
      if candidate == "" {
        continue;
      }
      CanonicalSnoc(done, candidate, rewrite);
      done := done + [candidate];
      var normalized := rewrite(candidate);
      if normalized.None? {
        CanonicalFails(done, NonEmpty(parts[i + 1..], clean), rewrite);
        return Err;
      }
      if normalized.value in seen {
        continue;
      }
      seen := seen + {normalized.value};
      networks := networks + [normalized.value];
    }
    assert parts[..|parts|] == parts;
    r := Ok(Join(networks, ','));
  }

  method CombinedTrustedProxyIps(subnet: string, proxies: string) returns (r: Result<string>)
    ensures r == Normalize(Combine(subnet, proxies))
  {
    r := NormalizeProxyIpList(Combine(subnet, proxies));
  }

  /** One more character in front of split text. */
  function Prepend(c: char, sep: char, parts: seq<string>): seq<string>
    requires parts != []
  {
    if c == sep then [""] + parts else [[c] + parts[0]] + parts[1..]
  }

  lemma PrependAppend(c: char, sep: char, a: seq<string>, b: seq<string>)
    requires a != []
    ensures Prepend(c, sep, a + b) == Prepend(c, sep, a) + b
  {
    ConsAppend(a, b);
    Concat3([""], a, b);
    Concat3([[c] + a[0]], a[1..], b);
  }

  lemma SplitFirst(c: char, s: string, sep: char)
    ensures Split([c] + s, sep) == Prepend(c, sep, Split(s, sep))
  {
    assert ([c] + s)[1..] == s;
  }

  lemma {:induction false} SplitAppend(a: string, b: string, sep: char)
    ensures Split(a + [sep] + b, sep) == Split(a, sep) + Split(b, sep)
  {
    if a == "" {
      assert a + [sep] + b == [sep] + b;
      SplitFirst(sep, b, sep);
    } else {
      SplitAppend(a[1..], b, sep);
      ConsAppend(a, [sep]);
      ConsAppend(a + [sep], b);
      ConsAppend(a, "");
      SplitFirst(a[0], a[1..], sep);
      SplitFirst(a[0], a[1..] + [sep] + b, sep);
      PrependAppend(a[0], sep, Split(a[1..], sep), Split(b, sep));
    }
  }

  lemma BlankList(value: string)
    requires Trim(value) == ""
    ensures CommaParts(value) == []
  {
    TrimFixes(value);
    SplitParts(value, ',');
    forall p | p in Split(value, ',') ensures Trim(p) == "" {
      forall i | 0 <= i < |p| ensures IsSpace(p[i]) { assert p[i] in p; }
      TrimFixes(p);
    }
    NonEmptyNone(Split(value, ','), Trim);
  }

  lemma JoinTwo(a: string, b: string)
    ensures Join([a, b], ',') == a + [','] + b
  {
    assert [a, b][1..] == [b];
  }

  /** The combined list has exactly the entries of both arguments, in order. */
  lemma CombinedCandidates(subnet: string, proxies: string)
    ensures CommaParts(Combine(subnet, proxies)) == CommaParts(subnet) + CommaParts(proxies)
  {
    hide Split, NonEmpty, Trim;
    if Trim(subnet) == "" { BlankList(subnet); }
    if Trim(proxies) == "" { BlankList(proxies); }
    if Trim(subnet) != "" && Trim(proxies) != "" {
      SplitAppend(subnet, proxies, ',');
      NonEmptyAppend(Split(subnet, ','), Split(proxies, ','), Trim);
      JoinTwo(subnet, proxies);
    } else if Trim(subnet) == "" && Trim(proxies) == "" {
      assert Combine(subnet, proxies) == "";
      TrimFixes("");
      BlankList("");
    }
  }

  lemma NormalizeEntryKeepsNetwork(candidate: string)
    ensures NormalizeEntry(candidate).Some? <==> ParseNetwork(candidate).Some?
    ensures var t := NormalizeEntry(candidate);
            t.Some? ==>
              && ParseNetwork(t.value) == ParseNetwork(candidate)
              && NormalizeEntry(t.value) == t
              && CanonicalText(t.value)
  {
    ParsedNetworkValid(candidate);
    var n := ParseNetwork(candidate);
    if n.Some? {
      ParsePrintedNetwork(n.value);
    }
  }

  lemma NormalizedEntries(value: string)
    requires Normalize(value).Ok?
    ensures CommaParts(Normalize(value).value) == Canonical(CommaParts(value), NormalizeEntry).value
  {
    var entries := Canonical(CommaParts(value), NormalizeEntry).value;
    forall x: string ensures NormalizeEntry(x).Some? ==> CanonicalText(NormalizeEntry(x).value) {
      NormalizeEntryKeepsNetwork(x);
    }
    CanonicalAll(CommaParts(value), NormalizeEntry, CanonicalText);
    JoinedEntries(entries);
  }

  lemma JoinedEntries(entries: seq<string>)
    requires forall e :: e in entries ==> CanonicalText(e)
    ensures CommaParts(Join(entries, ',')) == entries
  {
    forall e | e in entries ensures Free(e, ',') && Trimmed(e) {
      assert e[0] in e && e[|e| - 1] in e;
    }
    if entries == [] {
      BlankList("");
    } else {
      SplitJoin(entries, ',');
      forall i | 0 <= i < |entries| ensures entries[i] != "" && Trim(entries[i]) == entries[i] {
        assert entries[i] in entries;
        TrimFixes(entries[i]);
      }
      NonEmptyFixed(entries, Trim);
    }
  }

  lemma NormalizedCovers(value: string, c: Address)
    requires ValidAddress(c) && Normalize(value).Ok?
    ensures Covered(CommaParts(Normalize(value).value), c) <==> Covered(CommaParts(value), c)
  {
    NormalizedEntries(value);
    forall x: string | NormalizeEntry(x).Some?
      ensures EntryCovers(NormalizeEntry(x).value, c) == EntryCovers(x, c)
    {
      NormalizeEntryKeepsNetwork(x);
      EntryCoversIffContains(x, c);
      EntryCoversIffContains(NormalizeEntry(x).value, c);
    }
    CanonicalKeeps(CommaParts(value), NormalizeEntry, e => EntryCovers(e, c));
  }

  /** The combined chain trusts exactly the union of what the two lists name, and is rejected
      exactly when one of them holds a malformed entry. */
  lemma CombinedCoversUnion(subnet: string, proxies: string, c: Address)
    requires ValidAddress(c)
    ensures Normalize(Combine(subnet, proxies)).Err?
       <==> SomeEntry(CommaParts(subnet), Malformed) || SomeEntry(CommaParts(proxies), Malformed)
    ensures var r := Normalize(Combine(subnet, proxies));
            r.Ok? ==>
              (Covered(CommaParts(r.value), c) <==> Covered(CommaParts(subnet), c) || Covered(CommaParts(proxies), c))
  {
    var all := CommaParts(Combine(subnet, proxies));
    CombinedCandidates(subnet, proxies);
    forall x: string ensures NormalizeEntry(x).None? <==> Malformed(x) {
      NormalizeEntryKeepsNetwork(x);
    }
    RewriteRejects(all, NormalizeEntry, Malformed);
    SomeOfBoth(CommaParts(subnet), CommaParts(proxies), Malformed);
    SomeOfBoth(CommaParts(subnet), CommaParts(proxies), e => EntryCovers(e, c));
    if Normalize(Combine(subnet, proxies)).Ok? {
      NormalizedCovers(Combine(subnet, proxies), c);
    }
  }

  lemma SomeOfBoth(a: seq<string>, b: seq<string>, p: string -> bool)
    ensures SomeEntry(a + b, p) <==> SomeEntry(a, p) || SomeEntry(b, p)
  {
    if SomeEntry(a, p) {
      var e :| e in a && p(e);
      assert e in a + b;
    }
    if SomeEntry(b, p) {
      var e :| e in b && p(e);
      assert e in a + b;
    }
  }

  /** Normalizing the chain again changes nothing. */
  lemma NormalizeIdempotent(value: string)
    requires Normalize(value).Ok?
    ensures Normalize(Normalize(value).value) == Normalize(value)
  {
    NormalizedEntries(value);
    forall x: string ensures NormalizeEntry(x).Some? ==> NormalizeEntry(NormalizeEntry(x).value) == NormalizeEntry(x) {
      NormalizeEntryKeepsNetwork(x);
    }
    CanonicalAgain(CommaParts(value), NormalizeEntry);
  }
}
