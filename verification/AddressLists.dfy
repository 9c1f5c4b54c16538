/** What the client allowlist and the trusted proxy list share: rewriting every entry to its
    canonical text and keeping first occurrences. */
module AddressLists {
  import opened Text
  import opened IpNetworks

  datatype Result<+T> = Ok(value: T) | Err

  /** `rewrite` on every entry, or an error when it fails on some entry. */
  function RewriteAll<T>(entries: seq<string>, rewrite: string -> Option<T>): (r: Result<seq<T>>)
    ensures r.Ok? ==> |r.value| == |entries|
    ensures r.Ok? ==> forall i :: 0 <= i < |entries| ==> rewrite(entries[i]) == Some(r.value[i])
    ensures r.Err? <==> exists i :: 0 <= i < |entries| && rewrite(entries[i]).None?
  {
    if entries == [] then Ok([])
    else
      var last := |entries| - 1;
      match (RewriteAll(entries[..last], rewrite), rewrite(entries[last]))
      case (Ok(done), Some(text)) => Ok(done + [text])
      case (Err, _) => Err
      case (_, None) => Err
  }

  /** First occurrences only, in order. */
  function Dedupe(s: seq<string>): (r: seq<string>)
    ensures forall x :: x in r <==> x in s
    ensures |r| <= |s|
  {
    if s == [] then []
    else
      var r := Dedupe(s[..|s| - 1]);
      var x := s[|s| - 1];
      assert s == s[..|s| - 1] + [x];
      if x in r then r else r + [x]
  }

  predicate Distinct(s: seq<string>) {
    forall i, j :: 0 <= i < j < |s| ==> s[i] != s[j]
  }

  lemma {:induction false} DedupeDistinct(s: seq<string>)
    ensures Distinct(Dedupe(s))
    ensures Distinct(s) ==> Dedupe(s) == s
  {
    if s != [] {
      var init := s[..|s| - 1];
      DedupeDistinct(init);
      assert s == init + [s[|s| - 1]];
      if Distinct(s) {
        assert forall i :: 0 <= i < |init| ==> init[i] != s[|s| - 1];
        assert s[|s| - 1] !in init;
      }
    }
  }

  /** The rewritten, deduplicated entries. */
  function Canonical(entries: seq<string>, rewrite: string -> Option<string>): Result<seq<string>> {
    match RewriteAll(entries, rewrite)
    case Ok(texts) => Ok(Dedupe(texts))
    case Err => Err
  }

  lemma {:induction false} RewriteFixed(entries: seq<string>, rewrite: string -> Option<string>)
    requires forall x :: x in entries ==> rewrite(x) == Some(x)
    ensures RewriteAll(entries, rewrite) == Ok(entries)
  {
    if entries != [] {
      var init := entries[..|entries| - 1];
      RewriteFixed(init, rewrite);
      assert entries == init + [entries[|entries| - 1]];
    }
  }

  /** Canonical entries are left alone by a second pass when single rewrites are. */
  lemma CanonicalAgain(entries: seq<string>, rewrite: string -> Option<string>)
    requires forall x :: rewrite(x).Some? ==> rewrite(rewrite(x).value) == rewrite(x)
    requires Canonical(entries, rewrite).Ok?
    ensures Canonical(Canonical(entries, rewrite).value, rewrite) == Canonical(entries, rewrite)
  {
    var texts := RewriteAll(entries, rewrite).value;
    var kept := Dedupe(texts);
    forall x | x in kept ensures rewrite(x) == Some(x) {
      var i :| 0 <= i < |texts| && texts[i] == x;
      assert rewrite(entries[i]) == Some(x);
    }
    RewriteFixed(kept, rewrite);
    DedupeDistinct(texts);
    DedupeDistinct(kept);
  }

  /** `c` lies in the block that some written entry names. */
  ghost predicate Covered(entries: seq<string>, c: Address) {
    SomeEntry(entries, e => EntryCovers(e, c))
  }

  predicate EntryCovers(entry: string, c: Address) {
    match ParseEntry(entry)
    case Some(e) => InBlock(e.address, e.prefix, c)
    case None => false
  }

  predicate Malformed(entry: string) {
    ParseEntry(entry).None?
  }

  /** Text the printers produce: never empty, no separator of either list in it. */
  predicate CanonicalText(t: string) {
    t != "" && forall c :: c in t ==> IsAddressChar(c) || c == '/'
  }

  lemma EntryCoversIffContains(entry: string, c: Address)
    requires ValidAddress(c)
    ensures EntryCovers(entry, c) <==> ParseNetwork(entry).Some? && Contains(ParseNetwork(entry).value, c)
    ensures ParseNetwork(entry).Some? ==> ValidNetwork(ParseNetwork(entry).value)
  {
    match ParseEntry(entry)
    case None =>
    case Some(e) =>
      ParsedEntryValid(entry);
      ContainsIsInterval(e.address, e.prefix, c);
  }

  lemma ParsedEntryValid(entry: string)
    ensures ParseEntry(entry).Some? ==> ValidAddress(ParseEntry(entry).value.address)
  {
    ParsedAddressValid(Split(entry, '/')[0]);
  }

  lemma ParsedNetworkValid(entry: string)
    ensures ParseNetwork(entry).Some? ==> ValidNetwork(ParseNetwork(entry).value)
  {
    match ParseEntry(entry)
    case None =>
    case Some(e) =>
      ParsedEntryValid(entry);
      ContainsIsInterval(e.address, e.prefix, e.address);
  }

  ghost predicate SomeEntry(entries: seq<string>, p: string -> bool) {
    exists e :: e in entries && p(e)
  }

  /** A property every single rewrite keeps holds of some canonical entry exactly when it holds
      of some written one: neither rewriting nor deduplication adds or loses any. */
  lemma CanonicalKeeps(entries: seq<string>, rewrite: string -> Option<string>, p: string -> bool)
    requires Canonical(entries, rewrite).Ok?
    requires forall x :: rewrite(x).Some? ==> p(rewrite(x).value) == p(x)
    ensures SomeEntry(Canonical(entries, rewrite).value, p) <==> SomeEntry(entries, p)
  {
    var texts := RewriteAll(entries, rewrite).value;
    if SomeEntry(entries, p) {
      var e :| e in entries && p(e);
      var i :| 0 <= i < |entries| && entries[i] == e;
      assert texts[i] in Dedupe(texts) && p(texts[i]);
    }
    if SomeEntry(Dedupe(texts), p) {
      var t :| t in Dedupe(texts) && p(t);
      var i :| 0 <= i < |texts| && texts[i] == t;
      assert entries[i] in entries && p(entries[i]);
    }
  }

  lemma CanonicalAll(entries: seq<string>, rewrite: string -> Option<string>, good: string -> bool)
    requires Canonical(entries, rewrite).Ok?
    requires forall e :: e in entries && rewrite(e).Some? ==> good(rewrite(e).value)
    ensures forall t :: t in Canonical(entries, rewrite).value ==> good(t)
  {
    var texts := RewriteAll(entries, rewrite).value;
    forall t | t in Dedupe(texts) ensures good(t) {
      var i :| 0 <= i < |texts| && texts[i] == t;
      assert rewrite(entries[i]) == Some(t) && entries[i] in entries;
    }
  }

  /** One loop iteration: the canonical form of one more entry. */
  lemma CanonicalSnoc(done: seq<string>, entry: string, rewrite: string -> Option<string>)
    requires Canonical(done, rewrite).Ok?
    ensures rewrite(entry).None? ==> Canonical(done + [entry], rewrite).Err?
    ensures rewrite(entry).Some? ==>
              var kept, text := Canonical(done, rewrite).value, rewrite(entry).value;
              Canonical(done + [entry], rewrite) == Ok(if text in kept then kept else kept + [text])
  {
    assert (done + [entry])[..|done|] == done;
    if rewrite(entry).Some? {
      var texts, text := RewriteAll(done, rewrite).value, rewrite(entry).value;
      assert (texts + [text])[..|texts|] == texts;
    }
  }

  lemma CanonicalFails(done: seq<string>, rest: seq<string>, rewrite: string -> Option<string>)
    requires Canonical(done, rewrite).Err?
    ensures Canonical(done + rest, rewrite).Err?
  {
    var i :| 0 <= i < |done| && rewrite(done[i]).None?;
    assert (done + rest)[i] == done[i];
  }

  lemma RewriteStep<T>(entries: seq<string>, i: nat, rewrite: string -> Option<T>)
    requires i < |entries| && RewriteAll(entries[..i], rewrite).Ok? && rewrite(entries[i]).Some?
    ensures RewriteAll(entries[..i + 1], rewrite)
         == Ok(RewriteAll(entries[..i], rewrite).value + [rewrite(entries[i]).value])
    ensures entries[..|entries|] == entries
  {
    assert entries[..i + 1][..i] == entries[..i];
  }

  lemma RewriteRejects<T>(entries: seq<string>, rewrite: string -> Option<T>, bad: string -> bool)
    requires forall x :: rewrite(x).None? <==> bad(x)
    ensures RewriteAll(entries, rewrite).Err? <==> SomeEntry(entries, bad)
  {
    if SomeEntry(entries, bad) {
      var e :| e in entries && bad(e);
      var i :| 0 <= i < |entries| && entries[i] == e;
      assert rewrite(entries[i]).None?;
    }
  }

  lemma AllParse<T>(entries: seq<string>, rewrite: string -> Option<T>)
    requires forall e :: e in entries ==> rewrite(e).Some?
    ensures RewriteAll(entries, rewrite).Ok?
  {
  }

  lemma AnyMatches<T>(entries: seq<string>, found: seq<T>, p: string -> bool, q: T -> bool)
    requires |entries| == |found|
    requires forall i :: 0 <= i < |entries| ==> p(entries[i]) == q(found[i])
    ensures SomeEntry(entries, p) <==> exists i :: 0 <= i < |found| && q(found[i])
  {
    if i :| 0 <= i < |found| && q(found[i]) {
      assert entries[i] in entries && p(entries[i]);
    }
    if SomeEntry(entries, p) {
      var e :| e in entries && p(e);
      var i :| 0 <= i < |entries| && entries[i] == e;
      assert q(found[i]);
    }
  }
}
